/** The posting service, statement by statement, for one request at a time. */
module LedgerService {
  import opened Wrappers
  import opened Types
  import opened Legs
  import opened Schema
  import opened Pipeline
  import opened Scripts

  /** The lines that the first `n` DTO lines become, up to the first that is refused. */
  function InsertedLines(chart: Chart, dto: PostDto, n: nat): Option<seq<Line>>
    requires n <= |dto.lines|
  {
    if n == 0 then Some([])
    else
      match InsertedLines(chart, dto, n - 1)
      case None => None
      case Some(lines) =>
        match InsertLine(chart, dto.tenant, dto.lines[n - 1])
        case None => None
        case Some(line) => Some(lines + [line])
  }

  /** The tables that posting touches. */
  datatype Journal = Journal(entries: map<EntryId, Entry>, keys: map<IdemKey, EntryId>, events: map<EventId, Event>)

  /** What one call answers and leaves behind when nothing else runs. */
  function Posting(chart: Chart, j: Journal, dto: PostDto, entry: EntryId, event: EventId, created: nat): (Reply,
          Journal)
  {
    var inserted := InsertedLines(chart, dto, |dto.lines|);
    if !Balanced(DtoLegs(dto.lines)) then (BadRequest, j)
    else if KeyOf(dto) in j.keys then (Cached(j.keys[KeyOf(dto)]), j)
    else if inserted.None? || !LinesBalanced(inserted.value) then (Failed, j)
    else (Posted(entry), Journal(
            j.entries[entry := Entry(dto.tenant, inserted.value)],
            j.keys[KeyOf(dto) := entry],
            j.events[event := Event(dto.tenant, created, JournalPosted, Some(entry), Pending)]))
  }

  /* ----- What a caller sees of one call ----- */

  /** What the first `n` lines of the request add up to on one side. */
  function Requested(lines: seq<LineDto>, n: nat, direction: Direction): nat
    requires n <= |lines|
  {
    if n == 0 then 0
    else Requested(lines, n - 1, direction) + if lines[n - 1].direction == direction then lines[n - 1].amount else 0
  }

  predicate BalancedRequest(dto: PostDto)
  {
    Requested(dto.lines, |dto.lines|, Debit) == Requested(dto.lines, |dto.lines|, Credit)
  }

  /** The tenant has an account with every code, and every amount is positive and fits NUMERIC(20,4). */
  predicate Insertable(chart: Chart, dto: PostDto)
  {
    forall i :: 0 <= i < |dto.lines| ==>
        Account(dto.tenant, dto.lines[i].code) in chart.index && 0 < dto.lines[i].amount < 10000000000000000
  }

  /** `entry` is the request line by line, on the tenant's accounts with those codes. */
  predicate Holds(chart: Chart, dto: PostDto, entry: Entry)
  {
    && entry.tenant == dto.tenant && |entry.lines| == |dto.lines|
    && forall i :: 0 <= i < |dto.lines| ==>
         && Account(dto.tenant, dto.lines[i].code) in chart.index
         && entry.lines[i] == Line(dto.tenant, chart.index[Account(dto.tenant, dto.lines[i].code)],
                                   dto.lines[i].direction, dto.lines[i].amount, dto.lines[i].currency)
  }

  /** Which reply a request gets, and what it leaves: everything of the entry or nothing. */
  predicate Replies(chart: Chart, j: Journal, dto: PostDto, entry: EntryId, event: EventId, created: nat, reply: Reply,
          j': Journal)
  {
    var pair := IdemKey(dto.tenant, dto.key);
    && (reply == BadRequest <==> !BalancedRequest(dto))
    && (reply.Cached? <==> BalancedRequest(dto) && pair in j.keys)
    && (reply.Cached? ==> reply.id == j.keys[pair])
    && (reply == Failed <==> BalancedRequest(dto) && pair !in j.keys && !Insertable(chart, dto))
    && (reply.Posted? <==> BalancedRequest(dto) && pair !in j.keys && Insertable(chart, dto))
    && (reply.Posted? ==>
         && reply.id == entry
         && entry in j'.entries && Holds(chart, dto, j'.entries[entry])
         && j'.entries == j.entries[entry := j'.entries[entry]]
         && j'.keys == j.keys[pair := entry]
         && j'.events == j.events[event := Event(dto.tenant, created, JournalPosted, Some(entry), Pending)])
    && (!reply.Posted? ==> j' == j)
  }

  class Ledger {
    const chart: Chart
    var entries: map<EntryId, Entry>
    var keys: map<IdemKey, EntryId>
    var events: map<EventId, Event>

    constructor (chart: Chart)
      ensures this.chart == chart && Tables() == Journal(map[], map[], map[])
    {
      this.chart := chart;
      entries, keys, events := map[], map[], map[];
    }

    function Tables(): Journal
      reads this
    {
      Journal(entries, keys, events)
    }

    /** The two accumulators of validateBalance. */
    method ValidateBalance(dto: PostDto) returns (ok: bool)
      ensures ok <==> BalancedRequest(dto)
      ensures ok <==> Balanced(DtoLegs(dto.lines))
    {
      var debits, credits := 0, 0;
      var i := 0;
      while i < |dto.lines|
        invariant 0 <= i <= |dto.lines|
        invariant debits == Requested(dto.lines, i, Debit) && credits == Requested(dto.lines, i, Credit)
      {
        if dto.lines[i].direction == Debit {
          debits := debits + dto.lines[i].amount;
        } else {
          credits := credits + dto.lines[i].amount;
        }
        i := i + 1;
      }
      ok := debits == credits;
      RequestedSides(chart, dto, [], |dto.lines|, Debit);
      RequestedSides(chart, dto, [], |dto.lines|, Credit);
    }

    /** `entry` and `event` are the fresh ids that the database generates. */
    method PostEntry(dto: PostDto, entry: EntryId, event: EventId, created: nat) returns (reply: Reply)
      requires entry !in entries && event !in events
      modifies this
      ensures (reply, Tables()) == Posting(chart, old(Tables()), dto, entry, event, created)
      ensures Replies(chart, old(Tables()), dto, entry, event, created, reply, Tables())
    {
      PostingExact(chart, Tables(), dto, entry, event, created);
      var balanced := ValidateBalance(dto);
      if !balanced {
        return BadRequest;
      }
      var key := KeyOf(dto);
      if key in keys {
        return Cached(keys[key]);
      }
      // Rows of the open transaction, dropped by any return before the commit.
      var lines: seq<Line> := [];
      var i := 0;
      while i < |dto.lines|
        invariant 0 <= i <= |dto.lines|
        invariant InsertedLines(chart, dto, i) == Some(lines)
      {
        var line := InsertLine(chart, dto.tenant, dto.lines[i]);
        if line.None? {
          StaysRefused(chart, dto, i + 1, |dto.lines|);
          return Failed;
        }
        lines := lines + [line.value];
        i := i + 1;
      }
      if !LinesBalanced(lines) {
        return Failed;
      }
      entries := entries[entry := Entry(dto.tenant, lines)];
      keys := keys[key := entry];
      events := events[event := Event(dto.tenant, created, JournalPosted, Some(entry), Pending)];
      return Posted(entry);
    }
  }

  lemma {:induction false} StaysRefused(chart: Chart, dto: PostDto, n: nat, m: nat)
    requires n <= m <= |dto.lines| && InsertedLines(chart, dto, n) == None
    ensures InsertedLines(chart, dto, m) == None
    decreases m
  {
    if n < m {
      StaysRefused(chart, dto, n, m - 1);
    }
  }

  lemma {:induction false} InsertedExact(chart: Chart, dto: PostDto, n: nat)
    requires n <= |dto.lines|
    ensures var inserted := InsertedLines(chart, dto, n);
            && (inserted.Some? <==> forall i :: 0 <= i < n ==>
                 Account(dto.tenant, dto.lines[i].code) in chart.index && 0 < dto.lines[i].amount < 10000000000000000)
            && (inserted.Some? ==>
                 && |inserted.value| == n
                 && forall i :: 0 <= i < n ==>
                      inserted.value[i] == Line(dto.tenant, chart.index[Account(dto.tenant, dto.lines[i].code)],
                          dto.lines[i].direction, dto.lines[i].amount, dto.lines[i].currency))
  {
    if n > 0 {
      InsertedExact(chart, dto, n - 1);
    }
  }

  /** What the request asks for is what its legs, and the legs of the lines that hold it, add up to. */
  lemma {:induction false} RequestedSides(chart: Chart, dto: PostDto, lines: seq<Line>, n: nat, direction: Direction)
    requires n <= |dto.lines|
    ensures SideUpTo(DtoLegs(dto.lines), n, direction == Debit) == Requested(dto.lines, n, direction)
    ensures Holds(chart, dto, Entry(dto.tenant, lines)) ==>
        SideUpTo(StoredLegs(lines), n, direction == Debit) == Requested(dto.lines, n, direction)
  {
    if n > 0 {
      RequestedSides(chart, dto, lines, n - 1, direction);
    }
  }

  /** One call on any tables: each reply is given exactly when it should be, with exactly its effect. */
  lemma PostingExact(chart: Chart, j: Journal, dto: PostDto, entry: EntryId, event: EventId, created: nat)
    ensures var (reply, j') := Posting(chart, j, dto, entry, event, created);
            Replies(chart, j, dto, entry, event, created, reply, j')
  {
    InsertedExact(chart, dto, |dto.lines|);
    var inserted := InsertedLines(chart, dto, |dto.lines|);
    var lines := if inserted.Some? then inserted.value else [];
    RequestedSides(chart, dto, lines, |dto.lines|, Debit);
    RequestedSides(chart, dto, lines, |dto.lines|, Credit);
  }

  /** A repeated request answers with the entry of the first one and changes nothing. */
  lemma RepeatIsCached(chart: Chart, j: Journal, dto: PostDto, entry: EntryId, event: EventId, created: nat,
          entry': EntryId, event': EventId, created': nat)
    ensures var (reply, j') := Posting(chart, j, dto, entry, event, created);
            reply == Posted(entry) ==> Posting(chart, j', dto, entry', event', created') == (Cached(entry), j')
  {
  }

  /* ----- One call is one uninterrupted run of the machine ----- */

  ghost function TablesOf(s: State): Journal
  {
    Journal(s.entries, s.keys, s.events)
  }

  /** No transaction in flight holds the key. */
  predicate KeyFree(s: State, key: IdemKey)
  {
    forall q :: q in s.posts && HoldsKey(s.posts[q]) ==> KeyOf(s.posts[q].dto) != key
  }

  /** The lines go in one by one until all are in or one is refused. */
  lemma {:induction false} LinesPlay(cfg: Config, s: State, p: PostId, n: nat) returns (steps: seq<Step>, s': State)
    requires p in s.posts && s.posts[p].Writing? && s.posts[p].lines == [] && n <= |s.posts[p].dto.lines|
    ensures Plays(cfg, s, steps, s')
    ensures p in s'.posts && s' == s.(posts := s.posts[p := s'.posts[p]])
    ensures s'.posts[p] == match InsertedLines(cfg.chart, s.posts[p].dto, n)
                           case None => Done(s.posts[p].dto, Failed)
                           case Some(lines) => Writing(s.posts[p].dto, s.posts[p].entry, lines)
  {
    if n == 0 {
      PlaysNone(cfg, s);
      steps, s' := [], s;
    } else {
      steps, s' := LinesPlay(cfg, s, p, n - 1);
      if s'.posts[p].Writing? {
        InsertedCount(cfg.chart, s.posts[p].dto, n - 1);
        PlaysAppend(cfg, s, steps, s', Step.Post(p, InsertNextLine));
        steps, s' := steps + [Step.Post(p, InsertNextLine)], Apply(cfg, s', Step.Post(p, InsertNextLine));
      }
    }
  }

  lemma {:induction false} InsertedCount(chart: Chart, dto: PostDto, n: nat)
    requires n <= |dto.lines|
    ensures InsertedLines(chart, dto, n).Some? ==> |InsertedLines(chart, dto, n).value| == n
  {
    if n > 0 {
      InsertedCount(chart, dto, n - 1);
    }
  }

  /** Posting leaves the clock, the relay processes and the projection alone. */
  predicate RelayUntouched(s: State, s': State)
  {
    && s'.now == s.now && s'.workers == s.workers && s'.projected == s.projected && s'.balances == s.balances
    && s'.delivered == s.delivered
  }

  /** Nor does it touch other requests, or take an entry id but its own. */
  predicate OthersUntouched(s: State, s': State, p: PostId, entry: EntryId)
  {
    && p in s'.posts && s'.posts == s.posts[p := s'.posts[p]]
    && s'.usedEntries <= s.usedEntries + {entry}
  }

  lemma {:induction false} StepPlays(cfg: Config, s: State, steps: seq<Step>, s': State, act: PostAction, p: PostId)
    returns (steps': seq<Step>, s'': State)
    requires Plays(cfg, s, steps, s') && PostEnabled(cfg, s', p, act)
    ensures s'' == PostApply(cfg, s', p, act) && Plays(cfg, s, steps', s'') && RelayUntouched(s', s'')
  {
    PlaysAppend(cfg, s, steps, s', Step.Post(p, act));
    steps', s'' := steps + [Step.Post(p, act)], Apply(cfg, s', Step.Post(p, act));
  }

  /** postEntry without interference is a run of the pipeline with the same reply and the same tables. */
  lemma {:induction false} PostEntryIsARun(cfg: Config, s: State, p: PostId, dto: PostDto, entry: EntryId,
          event: EventId, created: nat)
    returns (steps: seq<Step>, s': State)
    requires p !in s.posts && entry !in s.usedEntries && event !in s.usedEvents && KeyFree(s, KeyOf(dto))
    ensures Plays(cfg, s, steps, s') && RelayUntouched(s, s') && OthersUntouched(s, s', p, entry)
    ensures p in s'.posts && s'.posts[p].Done?
    ensures (s'.posts[p].reply, TablesOf(s')) == Posting(cfg.chart, TablesOf(s), dto, entry, event, created)
  {
    if Balanced(DtoLegs(dto.lines)) && KeyOf(dto) !in s.keys {
      steps, s' := OpenPlays(cfg, s, p, dto, entry);
      var more, s2 := WritingPlays(cfg, s', p, dto, entry, event, created);
      PlaysConcat(cfg, s, steps, s', more, s2);
      steps, s' := steps + more, s2;
    } else {
      steps, s' := TurnedAwayPlays(cfg, s, p, dto);
    }
  }

  /** An unbalanced request, or one whose key has an entry. */
  lemma {:induction false} TurnedAwayPlays(cfg: Config, s: State, p: PostId, dto: PostDto)
    returns (steps: seq<Step>, s': State)
    requires p !in s.posts && (!Balanced(DtoLegs(dto.lines)) || KeyOf(dto) in s.keys)
    ensures Plays(cfg, s, steps, s')
    ensures s' == s.(posts := s.posts[p := Done(dto,
        if !Balanced(DtoLegs(dto.lines)) then BadRequest else Cached(s.keys[KeyOf(dto)]))])
  {
    PlaysNone(cfg, s);
    steps, s' := StepPlays(cfg, s, [], s, Receive(dto), p);
    if s'.posts[p].Opened? {
      steps, s' := StepPlays(cfg, s, steps, s', CheckKey, p);
    }
  }

  /** A balanced request for an unused key passes the key check. */
  lemma {:induction false} CheckPlays(cfg: Config, s: State, p: PostId, dto: PostDto)
    returns (steps: seq<Step>, s': State)
    requires p !in s.posts && Balanced(DtoLegs(dto.lines)) && KeyOf(dto) !in s.keys
    ensures Plays(cfg, s, steps, s') && s' == s.(posts := s.posts[p := Checked(dto)])
  {
    PlaysNone(cfg, s);
    steps, s' := StepPlays(cfg, s, [], s, Receive(dto), p);
    steps, s' := StepPlays(cfg, s, steps, s', CheckKey, p);
  }

  lemma {:induction false} OpenPlays(cfg: Config, s: State, p: PostId, dto: PostDto, entry: EntryId)
    returns (steps: seq<Step>, s': State)
    requires p !in s.posts && entry !in s.usedEntries && Balanced(DtoLegs(dto.lines)) && KeyOf(dto) !in s.keys
    ensures Plays(cfg, s, steps, s')
    ensures s' == s.(posts := s.posts[p := Writing(dto, entry, [])], usedEntries := s.usedEntries + {entry})
  {
    steps, s' := CheckPlays(cfg, s, p, dto);
    steps, s' := StepPlays(cfg, s, steps, s', InsertHeader(entry), p);
  }

  /** From the header on. */
  lemma {:induction false} WritingPlays(cfg: Config, s: State, p: PostId, dto: PostDto, entry: EntryId,
          event: EventId, created: nat)
    returns (steps: seq<Step>, s': State)
    requires p in s.posts && s.posts[p] == Writing(dto, entry, []) && event !in s.usedEvents
    requires forall q :: q in s.posts && HoldsKey(s.posts[q]) ==> KeyOf(s.posts[q].dto) != KeyOf(dto)
    requires Balanced(DtoLegs(dto.lines)) && KeyOf(dto) !in s.keys
    ensures Plays(cfg, s, steps, s') && RelayUntouched(s, s') && s'.usedEntries == s.usedEntries
    ensures p in s'.posts && s'.posts == s.posts[p := s'.posts[p]] && s'.posts[p].Done?
    ensures (s'.posts[p].reply, TablesOf(s')) == Posting(cfg.chart, TablesOf(s), dto, entry, event, created)
  {
    steps, s' := LinesPlay(cfg, s, p, |dto.lines|);
    if s'.posts[p].Writing? {
      InsertedCount(cfg.chart, dto, |dto.lines|);
      var more, s2 := LastStatementsPlay(cfg, s', p, event, created);
      PlaysConcat(cfg, s, steps, s', more, s2);
      steps, s' := steps + more, s2;
    }
  }

  /** The rows of the entry are in: idempotency row, outbox event and commit. */
  lemma {:induction false} LastStatementsPlay(cfg: Config, s: State, p: PostId, event: EventId, created: nat)
    returns (steps: seq<Step>, s': State)
    requires p in s.posts && s.posts[p].Writing? && |s.posts[p].lines| == |s.posts[p].dto.lines|
    requires event !in s.usedEvents && KeyOf(s.posts[p].dto) !in s.keys
    requires forall q :: q in s.posts && HoldsKey(s.posts[q]) ==> KeyOf(s.posts[q].dto) != KeyOf(s.posts[p].dto)
    ensures Plays(cfg, s, steps, s') && RelayUntouched(s, s') && s'.usedEntries == s.usedEntries
    ensures var tx := s.posts[p];
            if LinesBalanced(tx.lines) then
              && s'.posts == s.posts[p := Done(tx.dto, Posted(tx.entry))]
              && TablesOf(s') == Journal(
                   s.entries[tx.entry := Entry(tx.dto.tenant, tx.lines)],
                   s.keys[KeyOf(tx.dto) := tx.entry],
                   s.events[event := Event(tx.dto.tenant, created, JournalPosted, Some(tx.entry), Pending)])
            else s'.posts == s.posts[p := Done(tx.dto, Failed)] && TablesOf(s') == TablesOf(s)
  {
    PlaysNone(cfg, s);
    steps, s' := StepPlays(cfg, s, [], s, InsertKey, p);
    steps, s' := StepPlays(cfg, s, steps, s', InsertEvent(event, created), p);
    steps, s' := StepPlays(cfg, s, steps, s', Commit(true), p);
  }
}
