/**
 * The tables of the ledger database and what single SQL statements do to them.  Amounts are whole
 * units, as the posting DTO admits them; NUMERIC(20,4) holds values below 10^16.
 */
module Schema {
  import opened Wrappers
  import opened Types
  import opened Legs
  import Doubles
  import Backoff

  type TenantId = nat
  type EntryId = nat
  type EventId = nat

  const NUMERIC_LIMIT: int := 10000000000000000

  /** One account; (tenant, code) is unique. */
  datatype Account = Account(tenant: TenantId, code: string)

  /** Table accounts: the rows by primary key, and its UNIQUE (tenant_id, code) index. */
  datatype Chart = Chart(accounts: map<AccountId, Account>, index: map<Account, AccountId>)

  ghost predicate ChartOk(chart: Chart)
  {
    && (forall a :: a in chart.accounts ==> chart.accounts[a] in chart.index && chart.index[chart.accounts[a]] == a)
    && (forall c :: c in chart.index ==> chart.index[c] in chart.accounts && chart.accounts[chart.index[c]] == c)
  }

  datatype Line = Line(tenant: TenantId, account: AccountId, direction: Direction, amount: nat, currency: string)

  /** A journal_entries header together with its journal_lines. */
  datatype Entry = Entry(tenant: TenantId, lines: seq<Line>)

  datatype IdemKey = IdemKey(tenant: TenantId, key: string)

  datatype EventKind = JournalPosted | OtherKind

  /** The status column with the two timestamps that every update sets together with it. */
  datatype Status = Pending | Published | DeadLetter

  datatype Event = Event(tenant: TenantId, created: nat, kind: EventKind, aggregate: Option<EntryId>, status: Status)

  /** Primary key of account_balances. */
  datatype Slot = Slot(tenant: TenantId, account: AccountId)

  datatype Balance = Balance(currency: string, debit: int, credit: int, net: int)

  /** A ledger_projection row. */
  datatype Projected = Projected(tenant: TenantId, linesCount: nat, debit: nat, credit: nat)

  /* ----- Lines as legs ----- */

  function SlotOf(line: Line): Slot
  {
    Slot(line.tenant, line.account)
  }

  /** The amount that reaches account_balances: parseFloat of the stored text. */
  function Parsed(line: Line): nat
  {
    Doubles.Round(line.amount)
  }

  function StoredLegs(lines: seq<Line>): (legs: seq<Leg<Slot>>)
    ensures |legs| == |lines|
  {
    seq(|lines|, i requires 0 <= i < |lines| => Leg(SlotOf(lines[i]), lines[i].direction == Debit, lines[i].amount))
  }

  function ParsedLegs(lines: seq<Line>): (legs: seq<Leg<Slot>>)
    ensures |legs| == |lines|
  {
    seq(|lines|, i requires 0 <= i < |lines| => Leg(SlotOf(lines[i]), lines[i].direction == Debit, Parsed(lines[i])))
  }

  predicate LinesBalanced(lines: seq<Line>)
  {
    Balanced(StoredLegs(lines))
  }

  predicate FitsAmount(amount: nat)
  {
    0 < amount < NUMERIC_LIMIT
  }

  /* ----- Posting statements ----- */

  datatype LineDto = LineDto(code: string, amount: nat, direction: Direction, currency: string)

  datatype PostDto = PostDto(tenant: TenantId, key: string, lines: seq<LineDto>)

  function KeyOf(dto: PostDto): IdemKey
  {
    IdemKey(dto.tenant, dto.key)
  }

  /** The DTO's lines as the legs that the balance check before the transaction adds up, by account code. */
  function DtoLegs(lines: seq<LineDto>): (legs: seq<Leg<string>>)
    ensures |legs| == |lines|
  {
    seq(|lines|, i requires 0 <= i < |lines| => Leg(lines[i].code, lines[i].direction == Debit, lines[i].amount))
  }

  /** SELECT the account, then INSERT the line: None when the account is missing or the amount is refused. */
  function InsertLine(chart: Chart, tenant: TenantId, dto: LineDto): Option<Line>
  {
    if Account(tenant, dto.code) !in chart.index then None
    else if !FitsAmount(dto.amount) then None
    else Some(Line(tenant, chart.index[Account(tenant, dto.code)], dto.direction, dto.amount, dto.currency))
  }

  /* ----- Projection statements ----- */

  /** The running total of one side in the projection loop: every addition rounds to a double. */
  function FloatTotal(lines: seq<Line>, n: nat, direction: Direction): nat
    requires n <= |lines|
  {
    if n == 0 then 0
    else
      var t := FloatTotal(lines, n - 1, direction);
      if lines[n - 1].direction == direction then Doubles.Round(t + Parsed(lines[n - 1])) else t
  }

  function ProjectedRow(tenant: TenantId, lines: seq<Line>): Projected
  {
    Projected(tenant, |lines|, FloatTotal(lines, |lines|, Debit), FloatTotal(lines, |lines|, Credit))
  }

  predicate FitsProjected(row: Projected)
  {
    row.debit < NUMERIC_LIMIT && row.credit < NUMERIC_LIMIT
  }

  function Lookup(balances: map<Slot, Balance>, slot: Slot): Option<Balance>
  {
    if slot in balances then Some(balances[slot]) else None
  }

  /** INSERT ... ON CONFLICT DO UPDATE of one line on the row it finds. */
  function Upserted(row: Option<Balance>, line: Line): Balance
  {
    var d := if line.direction == Debit then Parsed(line) else 0;
    var c := if line.direction == Credit then Parsed(line) else 0;
    match row
    case None => Balance(line.currency, d, c, d - c)
    case Some(b) => Balance(b.currency, b.debit + d, b.credit + c, b.net + (d - c))
  }

  predicate FitsBalance(b: Balance)
  {
    && -NUMERIC_LIMIT < b.debit < NUMERIC_LIMIT
    && -NUMERIC_LIMIT < b.credit < NUMERIC_LIMIT
    && -NUMERIC_LIMIT < b.net < NUMERIC_LIMIT
  }

  /* ----- Outbox statements ----- */

  /** ORDER BY created_at ASC, id ASC */
  predicate Before(events: map<EventId, Event>, x: EventId, y: EventId)
    requires x in events && y in events
  {
    events[x].created < events[y].created || (events[x].created == events[y].created && x < y)
  }

  predicate Claimable(events: map<EventId, Event>, excluded: set<EventId>, locked: set<EventId>, id: EventId)
  {
    id in events && events[id].status == Pending && id !in excluded && id !in locked
  }

  /** `rows` is what the claim query returns when the rows in `locked` are skipped. */
  ghost predicate IsClaim(events: map<EventId, Event>, excluded: set<EventId>, locked: set<EventId>, limit: nat,
          rows: seq<EventId>)
  {
    && |rows| <= limit
    && (forall i :: 0 <= i < |rows| ==> Claimable(events, excluded, locked, rows[i]))
    && (forall i, j :: 0 <= i < j < |rows| ==> Before(events, rows[i], rows[j]))
    && (forall id :: Claimable(events, excluded, locked, id) && id !in rows ==>
          |rows| == limit && forall i :: 0 <= i < |rows| ==> Before(events, rows[i], id))
  }

  /** UPDATE ... SET status WHERE id = ANY(ids) AND status = 'pending' */
  function Resolve(events: map<EventId, Event>, ids: set<EventId>, status: Status): (r: map<EventId, Event>)
    ensures r.Keys == events.Keys
  {
    map id | id in events ::
      if id in ids && events[id].status == Pending then events[id].(status := status) else events[id]
  }

  /* ----- Retry bookkeeping of one relay process ----- */

  datatype Attempt = Attempt(attempts: nat, nextAt: real)

  const MAP_PRUNE_THRESHOLD: nat := 10000

  /** Ids still in backoff at time `now`. */
  function Excluded(backoff: map<EventId, Attempt>, now: real): set<EventId>
  {
    set id | id in backoff && backoff[id].nextAt > now
  }

  /** Drops the entries that are due. */
  function Pruned(backoff: map<EventId, Attempt>, now: real): map<EventId, Attempt>
  {
    map id | id in backoff && backoff[id].nextAt > now :: backoff[id]
  }

  /** After a successful mark: the marked ids leave the map, and a large map drops what is due. */
  function Cleaned(backoff: map<EventId, Attempt>, ok: set<EventId>, now: real): map<EventId, Attempt>
  {
    var rest := backoff - ok;
    if |rest| > MAP_PRUNE_THRESHOLD then Pruned(rest, now) else rest
  }

  function AttemptsOf(backoff: map<EventId, Attempt>, id: EventId): nat
  {
    if id in backoff then backoff[id].attempts else 0
  }

  datatype Config = Config(chart: Chart, batchSize: nat, maxAttempts: nat, base: nat, maxDelay: nat, jitterRatio: real)

  ghost predicate ConfigOk(cfg: Config)
  {
    && ChartOk(cfg.chart)
    && cfg.batchSize >= 1 && cfg.maxAttempts >= 1 && cfg.base >= 1 && cfg.maxDelay >= 1
    && cfg.jitterRatio >= 0.0
  }

  /** handleFailure gives up on an event. */
  predicate GiveUp(cfg: Config, backoff: map<EventId, Attempt>, id: EventId)
  {
    AttemptsOf(backoff, id) + 1 > cfg.maxAttempts
  }

  /** handleFailure schedules the next attempt. */
  function RetryLater(cfg: Config, backoff: map<EventId, Attempt>, id: EventId, now: real,
          jitter: real): map<EventId, Attempt>
  {
    var attempts := AttemptsOf(backoff, id) + 1;
    backoff[id := Attempt(attempts, now + Backoff.Delay(cfg.base, cfg.maxDelay, attempts) as real + jitter)]
  }
}
