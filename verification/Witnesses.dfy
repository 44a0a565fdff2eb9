/** Runs that reach what the code is not meant to do, and one that shows every accepted request can be projected. */
module Witnesses {
  import opened Wrappers
  import opened Types
  import opened Sums
  import opened Legs
  import opened Schema
  import opened Pipeline
  import opened PipelineInvariants
  import opened Scripts
  import opened ExactlyOnce
  import opened Conservation
  import opened LedgerService
  import opened ProjectionService
  import opened RelayService
  import opened RelayRuns
  import opened Reports
  import Doubles

  /** An empty database, one relay process and no requests yet. */
  function Fresh(w: WorkerId): State
  {
    State(map[], map[], map[], map[], map[], map[], map[w := FRESH_WORKER], 0.0, {}, {}, map[], {})
  }

  /* ----- When upserts fit ----- */

  lemma {:induction false} KeyWithinSide<K(!new)>(legs: seq<Leg<K>>, n: nat, key: K, debit: bool)
    requires n <= |legs| && forall i :: 0 <= i < |legs| ==> legs[i].amount >= 0
    ensures 0 <= SumUpTo(legs, n, key, debit) <= SideUpTo(legs, n, debit)
  {
    if n > 0 {
      KeyWithinSide(legs, n - 1, key, debit);
    }
  }

  lemma RowWithinSides(lines: seq<Line>, n: nat, slot: Slot)
    requires n <= |lines| && Upserts(map[], lines, n).Some?
    ensures var (d, c, net) := ReadRow(Upserts(map[], lines, n).value, slot);
            var legs := ParsedLegs(lines);
            0 <= d <= SideUpTo(legs, n, true) && 0 <= c <= SideUpTo(legs, n, false) && net == d - c
  {
    UpsertsAdd(map[], lines, n, slot);
    KeyWithinSide(ParsedLegs(lines), n, slot, true);
    KeyWithinSide(ParsedLegs(lines), n, slot, false);
  }

  /** On empty tables the upserts of an entry fit when its sides do. */
  lemma {:induction false} UpsertsFit(lines: seq<Line>, n: nat)
    requires n <= |lines|
    requires Side(ParsedLegs(lines), true) < NUMERIC_LIMIT && Side(ParsedLegs(lines), false) < NUMERIC_LIMIT
    ensures Upserts(map[], lines, n).Some?
  {
    if n > 0 {
      UpsertsFit(lines, n - 1);
      RowWithinSides(lines, n - 1, SlotOf(lines[n - 1]));
      SideMonotone(ParsedLegs(lines), n, |lines|, true);
      SideMonotone(ParsedLegs(lines), n, |lines|, false);
    }
  }

  /* ----- A request that is accepted and projected ----- */

  /** One published and projected event on a desk without another event. */
  lemma OnePoll(cfg: Config, entries: map<EntryId, Entry>, t: Tables, event: EventId, row: Event, now: real)
    requires row.status == Pending
    requires ProjectCall(entries, t, EnvelopeFor(row)).0 != Throws
    ensures var d := Desk(map[event := row], map[], t);
            && Poll(cfg, ServiceOver(entries), d, [event], [Trial(true, now, 0.0)], now)
               == Desk(map[event := row.(status := Published)], map[],
                   ProjectCall(entries, t, EnvelopeFor(row)).1)
  {
    var d := Desk(map[event := row], map[], t);
    var trials := [Trial(true, now, 0.0)];
    assert Batch(cfg, ServiceOver(entries), d, [event], 0, trials) == BatchState([], d);
    var b := Batch(cfg, ServiceOver(entries), d, [event], 1, trials);
    assert b == Dispatch(cfg, ServiceOver(entries), BatchState([], d), event, trials[0]);
    assert b.ok == [event] && Ids(b.ok) == {event};
    assert Resolve(b.desk.events, {event}, Published) == map[event := row.(status := Published)];
    assert b.desk.backoff - {event} == map[];
  }

  lemma OneClaim(event: EventId, row: Event, now: real, limit: nat)
    requires row.status == Pending && limit >= 1
    ensures IsClaim(map[event := row], Excluded(map[], now), {}, limit, [event])
  {
  }

  /** The request posts to an empty ledger, and its entry fits the projection tables. */
  predicate Admissible(cfg: Config, dto: PostDto)
  {
    && Balanced(DtoLegs(dto.lines)) && InsertedLines(cfg.chart, dto, |dto.lines|).Some?
    && var lines := InsertedLines(cfg.chart, dto, |dto.lines|).value;
       && LinesBalanced(lines) && FitsProjected(ProjectedRow(dto.tenant, lines))
       && Upserts(map[], lines, |lines|).Some?
  }

  /** The state after the request has been posted, relayed and projected. */
  ghost predicate Settles(cfg: Config, s: State, dto: PostDto, entry: EntryId)
    requires Admissible(cfg, dto)
  {
    var lines := InsertedLines(cfg.chart, dto, |dto.lines|).value;
    && s.entries == map[entry := Entry(dto.tenant, lines)]
    && s.projected == map[entry := ProjectedRow(dto.tenant, lines)]
    && s.balances == Upserts(map[], lines, |lines|).value
    && Quiescent(s)
  }

  lemma {:induction false} PostPlays(cfg: Config, w: WorkerId, dto: PostDto, entry: EntryId, event: EventId)
    returns (steps: seq<Step>, s: State)
    requires Admissible(cfg, dto)
    ensures Plays(cfg, Fresh(w), steps, s) && RelayUntouched(Fresh(w), s)
    ensures s.entries == map[entry := Entry(dto.tenant, InsertedLines(cfg.chart, dto, |dto.lines|).value)]
    ensures s.events == map[event := Event(dto.tenant, 0, JournalPosted, Some(entry), Pending)]
  {
    steps, s := PostEntryIsARun(cfg, Fresh(w), 0, dto, entry, event, 0);
    assert TablesOf(s) == Posting(cfg.chart, TablesOf(Fresh(w)), dto, entry, event, 0).1;
  }

  lemma ProjectsAccepted(cfg: Config, dto: PostDto, entry: EntryId)
    requires Admissible(cfg, dto)
    ensures var lines := InsertedLines(cfg.chart, dto, |dto.lines|).value;
            && ProjectCall(map[entry := Entry(dto.tenant, lines)], Tables(map[], map[]),
                Envelope(dto.tenant, JournalPosted, Some(entry)))
               == (Projects, Tables(map[entry := ProjectedRow(dto.tenant, lines)],
                   Upserts(map[], lines, |lines|).value))
  {
  }

  lemma {:induction false} RelayPlays(cfg: Config, s: State, w: WorkerId, event: EventId, row: Event)
    returns (steps: seq<Step>, s': State)
    requires cfg.batchSize >= 1 && cfg.jitterRatio >= 0.0 && RelayUntouched(Fresh(w), s)
        && s.events == map[event := row]
    requires row.status == Pending && ProjectCall(s.entries, Tables(map[], map[]), EnvelopeFor(row)).0 == Projects
    ensures Plays(cfg, s, steps, s') && s'.entries == s.entries && s'.events == map[event := row.(status := Published)]
    ensures Tables(s'.projected, s'.balances) == ProjectCall(s.entries, Tables(map[], map[]), EnvelopeFor(row)).1
  {
    FreshDesk(s, w);
    OneClaim(event, row, 0.0, cfg.batchSize);
    OnePoll(cfg, s.entries, Tables(map[], map[]), event, row, 0.0);
    OneTrialOk(cfg);
    steps, s' := PollIsARun(cfg, s, w, [event], {}, [Trial(true, 0.0, 0.0)], 0.0);
  }

  /** After posting the process is still idle with nothing on its desk but the events. */
  lemma FreshDesk(s: State, w: WorkerId)
    requires RelayUntouched(Fresh(w), s)
    ensures w in s.workers && s.workers[w].phase == Idle && Uncontended(s, w) && s.now == 0.0
    ensures DeskOf(s, w) == Desk(s.events, map[], Tables(map[], map[]))
  {
  }

  lemma OneTrialOk(cfg: Config)
    requires cfg.jitterRatio >= 0.0
    ensures AllJitterOk(cfg, [Trial(true, 0.0, 0.0)]) && Timed(0.0, [Trial(true, 0.0, 0.0)], 0.0)
  {
  }

  /** Every request that an empty ledger accepts has a run in which its entry is posted, published and projected. */
  lemma {:induction false} AcceptedIsProjected(cfg: Config, w: WorkerId, dto: PostDto, entry: EntryId, event: EventId)
    returns (states: seq<State>, steps: seq<Step>)
    requires ConfigOk(cfg) && Admissible(cfg, dto)
    ensures Run(cfg, states, steps) && Settles(cfg, states[|steps|], dto, entry)
    ensures forall i :: 0 <= i < |steps| ==> Calm(steps[i])
  {
    var s;
    steps, s := PostPlays(cfg, w, dto, entry, event);
    ProjectsAccepted(cfg, dto, entry);
    var more, s' := RelayPlays(cfg, s, w, event, Event(dto.tenant, 0, JournalPosted, Some(entry), Pending));
    PlaysConcat(cfg, Fresh(w), steps, s, more, s');
    steps := steps + more;
    states := PlaysIsARun(cfg, Fresh(w), steps, s');
  }

  /* ----- Two accounts ----- */

  function TwoAccounts(): Chart
  {
    Chart(map[1 := Account(0, "1000"), 2 := Account(0, "3000")], map[Account(0, "1000") := 1, Account(0, "3000") := 2])
  }

  /** Any settings over these accounts. */
  function With(cfg: Config): Config
  {
    cfg.(chart := TwoAccounts())
  }

  lemma TwoAccountsOk(cfg: Config)
    requires ConfigOk(cfg)
    ensures ConfigOk(With(cfg))
  {
    assert "1000"[0] != "3000"[0];
  }

  /** A request line for a stored line of one of the two accounts. */
  function Asked(line: Line): LineDto
  {
    LineDto(if line.account == 1 then "1000" else "3000", line.amount, line.direction, line.currency)
  }

  function Request(lines: seq<Line>): PostDto
  {
    PostDto(0, "k", seq(|lines|, i requires 0 <= i < |lines| => Asked(lines[i])))
  }

  predicate OnTwoAccounts(lines: seq<Line>)
  {
    forall i :: 0 <= i < |lines| ==> lines[i].tenant == 0 && lines[i].account in {1, 2} && FitsAmount(lines[i].amount)
  }

  lemma {:induction false} RequestInserts(lines: seq<Line>, n: nat)
    requires n <= |lines| && OnTwoAccounts(lines)
    ensures InsertedLines(TwoAccounts(), Request(lines), n) == Some(lines[..n])
  {
    if n > 0 {
      RequestInserts(lines, n - 1);
      assert "1000"[0] != "3000"[0];
      assert InsertLine(TwoAccounts(), 0, Asked(lines[n - 1])) == Some(lines[n - 1]);
      assert lines[..n] == lines[..n - 1] + [lines[n - 1]];
    }
  }

  lemma {:induction false} RequestSides(lines: seq<Line>, n: nat, debit: bool)
    requires n <= |lines|
    ensures SideUpTo(DtoLegs(Request(lines).lines), n, debit) == SideUpTo(StoredLegs(lines), n, debit)
  {
    if n > 0 {
      RequestSides(lines, n - 1, debit);
    }
  }

  /** Balanced lines on the two accounts whose sides fit can be posted and projected. */
  lemma RequestAdmissible(cfg: Config, lines: seq<Line>)
    requires OnTwoAccounts(lines) && LinesBalanced(lines) && FitsProjected(ProjectedRow(0, lines))
    requires Side(ParsedLegs(lines), true) < NUMERIC_LIMIT && Side(ParsedLegs(lines), false) < NUMERIC_LIMIT
    ensures Admissible(With(cfg), Request(lines))
    ensures InsertedLines(With(cfg).chart, Request(lines), |lines|) == Some(lines)
  {
    RequestInserts(lines, |lines|);
    assert lines[..|lines|] == lines;
    RequestSides(lines, |lines|, true);
    RequestSides(lines, |lines|, false);
    UpsertsFit(lines, |lines|);
  }

  /* ----- Conservation fails above 2^53 ----- */

  lemma UnevenFits()
    ensures var lines := UnevenLines(0, 1, 2, "USD");
            && OnTwoAccounts(lines) && LinesBalanced(lines) && FitsProjected(ProjectedRow(0, lines))
            && Side(ParsedLegs(lines), true) < NUMERIC_LIMIT && Side(ParsedLegs(lines), false) < NUMERIC_LIMIT
  {
    var lines := UnevenLines(0, 1, 2, "USD");
    UnevenDrifts(0, 1, 2, "USD");
    Doubles.FirstInexact();
    Doubles.SmallIsExact(0);
    Doubles.SmallIsExact(1);
    Doubles.SmallIsExact(Doubles.TWO_53);
    SideOfThree(ParsedLegs(lines), true);
    SideOfThree(ParsedLegs(lines), false);
    assert FloatTotal(lines, 0, Debit) == 0 && FloatTotal(lines, 0, Credit) == 0;
    assert FloatTotal(lines, 1, Debit) == Doubles.TWO_53 && FloatTotal(lines, 1, Credit) == 0;
    assert FloatTotal(lines, 2, Debit) == Doubles.TWO_53 && FloatTotal(lines, 2, Credit) == Doubles.TWO_53;
  }

  /** A run that posts and projects one balanced entry and ends with the nets of its tenant summing to -1. */
  lemma {:induction false} UnevenRun(cfg: Config, w: WorkerId, entry: EntryId, event: EventId)
    returns (states: seq<State>, steps: seq<Step>)
    requires ConfigOk(cfg)
    ensures Run(With(cfg), states, steps) && forall i :: 0 <= i < |steps| ==> Calm(steps[i])
    ensures states[|steps|].entries == map[entry := Entry(0, UnevenLines(0, 1, 2, "USD"))] && Quiescent(states[|steps|])
    ensures NetTotal(TwoAccounts(), states[|steps|], 0) == -1
  {
    var lines := UnevenLines(0, 1, 2, "USD");
    TwoAccountsOk(cfg);
    UnevenFits();
    RequestAdmissible(cfg, lines);
    states, steps := AcceptedIsProjected(With(cfg), w, Request(lines), entry, event);
    DriftOfOne(With(cfg), states, steps, entry, lines);
    UnevenDrifts(0, 1, 2, "USD");
  }

  /** With one projected entry the nets of its tenant sum to its drift. */
  lemma DriftOfOne(cfg: Config, states: seq<State>, steps: seq<Step>, entry: EntryId, lines: seq<Line>)
    requires Run(cfg, states, steps)
    requires states[|steps|].entries == map[entry := Entry(0, lines)] && states[|steps|].projected.Keys == {entry}
    ensures NetTotal(cfg.chart, states[|steps|], 0) == Drift(lines)
  {
    var s := states[|steps|];
    NetTotalIsDrift(cfg, states, steps, |steps|, 0);
    SetSumSingle({entry}, entry, (e: EntryId) => DriftOf(s.entries, e, 0));
  }

  /* ----- The balance sheet flag ----- */

  function CapitalLines(amount: nat): seq<Line>
  {
    [Line(0, 1, Debit, amount, "USD"), Line(0, 2, Credit, amount, "USD")]
  }

  lemma SideOfTwo(legs: seq<Leg<Slot>>, debit: bool)
    requires |legs| == 2
    ensures Side(legs, debit) == (if legs[0].debit == debit then legs[0].amount else 0)
                               + (if legs[1].debit == debit then legs[1].amount else 0)
  {
    assert SideUpTo(legs, 0, debit) == 0;
    assert SideUpTo(legs, 1, debit) == if legs[0].debit == debit then legs[0].amount else 0;
  }

  lemma CapitalFits(amount: nat)
    requires 0 < amount <= Doubles.TWO_53
    ensures var lines := CapitalLines(amount);
            && OnTwoAccounts(lines) && LinesBalanced(lines) && FitsProjected(ProjectedRow(0, lines))
            && Side(ParsedLegs(lines), true) < NUMERIC_LIMIT && Side(ParsedLegs(lines), false) < NUMERIC_LIMIT
  {
    var lines := CapitalLines(amount);
    Doubles.SmallIsExact(amount);
    SideOfTwo(StoredLegs(lines), true);
    SideOfTwo(StoredLegs(lines), false);
    SideOfTwo(ParsedLegs(lines), true);
    SideOfTwo(ParsedLegs(lines), false);
    FloatTotalExact(lines, 2, Debit);
    FloatTotalExact(lines, 2, Credit);
  }

  /** What the two lines post to their accounts. */
  lemma CapitalRows(amount: nat)
    requires 0 < amount <= Doubles.TWO_53 && Upserts(map[], CapitalLines(amount), 2).Some?
    ensures var balances := Upserts(map[], CapitalLines(amount), 2).value;
            && ReadRow(balances, Slot(0, 1)) == (amount, 0, amount)
            && ReadRow(balances, Slot(0, 2)) == (0, amount, -(amount as int))
  {
    var lines := CapitalLines(amount);
    Doubles.SmallIsExact(amount);
    forall a: AccountId, debit
      ensures SumUpTo(ParsedLegs(lines), 2, Slot(0, a), debit)
           == (if a == 1 && debit then amount else 0) + if a == 2 && !debit then amount else 0
    {
      assert SumUpTo(ParsedLegs(lines), 0, Slot(0, a), debit) == 0;
      assert SumUpTo(ParsedLegs(lines), 1, Slot(0, a), debit) == if a == 1 && debit then amount else 0;
    }
    UpsertsAdd(map[], lines, 2, Slot(0, 1));
    UpsertsAdd(map[], lines, 2, Slot(0, 2));
  }

  /** The two rows that the report query reads. */
  function CapitalReport(amount: nat): seq<ReportRow>
  {
    [ReportRow(1, "1000", amount, 0, amount), ReportRow(2, "3000", 0, amount, -(amount as int))]
  }

  lemma CapitalIsReport(amount: nat)
    requires 0 < amount <= Doubles.TWO_53 && Upserts(map[], CapitalLines(amount), 2).Some?
    ensures IsReport(TwoAccounts(), Upserts(map[], CapitalLines(amount), 2).value, 0, CapitalReport(amount))
  {
    CapitalRows(amount);
    var rows := CapitalReport(amount);
    assert rows[0].account == 1 && rows[1].account == 2;
  }

  /** A run that posts paid-in capital of any amount up to 2^53 and ends with a balanced report whose flag is off. */
  lemma {:induction false} CapitalRun(cfg: Config, w: WorkerId, entry: EntryId, event: EventId, amount: nat)
    returns (states: seq<State>, steps: seq<Step>)
    requires ConfigOk(cfg) && 0 < amount <= Doubles.TWO_53
    ensures Run(With(cfg), states, steps) && forall i :: 0 <= i < |steps| ==> Calm(steps[i])
    ensures SmallAmounts(states[|steps|], 0)
        && IsReport(TwoAccounts(), states[|steps|].balances, 0, CapitalReport(amount))
    ensures Shown(CapitalReport(amount), Debit) == Shown(CapitalReport(amount), Credit)
    ensures !BalanceSheet(CapitalReport(amount)).balanced
  {
    var lines := CapitalLines(amount);
    TwoAccountsOk(cfg);
    CapitalFits(amount);
    RequestAdmissible(cfg, lines);
    states, steps := AcceptedIsProjected(With(cfg), w, Request(lines), entry, event);
    CapitalShows(states[|steps|], entry, amount);
    PaidInCapitalTurnsFlagOff(1, 2, amount);
  }

  lemma CapitalShows(s: State, entry: EntryId, amount: nat)
    requires 0 < amount <= Doubles.TWO_53 && s.entries == map[entry := Entry(0, CapitalLines(amount))]
    requires Upserts(map[], CapitalLines(amount), 2).Some?
        && s.balances == Upserts(map[], CapitalLines(amount), 2).value
    ensures SmallAmounts(s, 0) && IsReport(TwoAccounts(), s.balances, 0, CapitalReport(amount))
  {
    CapitalIsReport(amount);
  }
}
