/**
 * The ledger pipeline as one concurrent state machine: any number of posting requests and relay
 * processes over one database.  Every step is one statement, commit, abort, crash or clock tick, so
 * a run is an arbitrary interleaving of them.
 */
module Pipeline {
  import opened Wrappers
  import opened Schema

  type PostId = nat
  type WorkerId = nat

  datatype Reply = Posted(id: EntryId) | Cached(id: EntryId) | BadRequest | Conflict | Failed

  /** One postEntry call: the constructors are the points between its statements. */
  datatype PostTx =
    | Opened(dto: PostDto)
    | Checked(dto: PostDto)
    | Writing(dto: PostDto, entry: EntryId, lines: seq<Line>)
    | Keyed(dto: PostDto, entry: EntryId, lines: seq<Line>)
    | Enqueued(dto: PostDto, entry: EntryId, lines: seq<Line>, event: EventId, created: nat)
    | Done(dto: PostDto, reply: Reply)

  /** Where the relay stands with the first row of its batch. */
  datatype Stage =
    | ToPublish
    | Delivered
    | Loaded(lines: seq<Line>)
    | Guarded(lines: seq<Line>)
    | Upserting(lines: seq<Line>, done: nat, writes: map<Slot, Balance>)
    | Failing

  datatype Phase =
    | Idle
    | Polling(excluded: set<EventId>)
    | Dispatching(rows: seq<EventId>, ok: set<EventId>, stage: Stage)

  /** One relay process.  `sent` is a history variable: publish calls per event since the process started. */
  datatype Worker = Worker(backoff: map<EventId, Attempt>, phase: Phase, sent: map<EventId, nat>)

  /** History variable: what the transaction that committed an entry wrote besides the entry. */
  datatype Origin = Origin(key: IdemKey, event: EventId)

  datatype State = State(
    entries: map<EntryId, Entry>,
    keys: map<IdemKey, EntryId>,
    events: map<EventId, Event>,
    projected: map<EntryId, Projected>,
    balances: map<Slot, Balance>,
    posts: map<PostId, PostTx>,
    workers: map<WorkerId, Worker>,
    now: real,
    // history: ids handed out, provenance of entries, successful publishes
    usedEntries: set<EntryId>,
    usedEvents: set<EventId>,
    origin: map<EntryId, Origin>,
    delivered: set<EventId>)

  const FRESH_WORKER := Worker(map[], Idle, map[])

  ghost predicate Init(s: State)
  {
    && s.entries == map[] && s.keys == map[] && s.events == map[] && s.projected == map[] && s.balances == map[]
    && s.posts == map[] && s.usedEntries == {} && s.usedEvents == {} && s.origin == map[] && s.delivered == {}
    && forall w :: w in s.workers ==> s.workers[w] == FRESH_WORKER
  }

  datatype PostAction =
    | Receive(dto: PostDto)
    | CheckKey
    | InsertHeader(entry: EntryId)
    | InsertNextLine
    | InsertKey
    | InsertEvent(event: EventId, created: nat)
    | Commit(acked: bool)
    | Abort

  datatype WorkerAction =
    | StartPoll
    | Claim(claimed: seq<EventId>, locked: set<EventId>)
    | Publish(success: bool)
    | Load
    | Guard
    | Insert
    | Upsert
    | CommitProjection(acked: bool)
    | ProjectionError
    | HandleFailure(jitter: real, acked: bool)
    | Finish(acked: bool)
    | BatchError
    | Crash

  datatype Step =
    | Post(p: PostId, act: PostAction)
    | Work(w: WorkerId, job: WorkerAction)
    | OtherEvent(event: EventId, tenant: TenantId, created: nat, aggregate: Option<EntryId>)
    | Tick(elapsed: real)

  /* ----- Posting ----- */

  predicate HoldsEntry(tx: PostTx)
  {
    tx.Writing? || tx.Keyed? || tx.Enqueued?
  }

  /** The transaction holds the uncommitted primary key of its idempotency row. */
  predicate HoldsKey(tx: PostTx)
  {
    tx.Keyed? || tx.Enqueued?
  }

  predicate PostEnabled(cfg: Config, s: State, p: PostId, act: PostAction)
  {
    if act.Receive? then p !in s.posts
    else
      && p in s.posts
      && var tx := s.posts[p];
         match act
         case Receive(_) => false
         case CheckKey => tx.Opened?
         case InsertHeader(entry) => tx.Checked? && entry !in s.usedEntries
         case InsertNextLine => tx.Writing? && |tx.lines| < |tx.dto.lines|
         // A second insert of an uncommitted key waits for the holder.
         case InsertKey =>
           && tx.Writing? && |tx.lines| == |tx.dto.lines|
           && forall q :: q in s.posts && q != p && HoldsKey(s.posts[q]) ==> KeyOf(s.posts[q].dto) != KeyOf(tx.dto)
         case InsertEvent(event, _) => tx.Keyed? && event !in s.usedEvents
         case Commit(_) => tx.Enqueued?
         case Abort => !tx.Done?
  }

  /** The transaction after its next statement. */
  function TxAfter(cfg: Config, s: State, p: PostId, act: PostAction): PostTx
    requires PostEnabled(cfg, s, p, act)
  {
    match act
    case Receive(dto) =>
      // validateBalance runs before the transaction is opened.
      if Legs.Balanced(DtoLegs(dto.lines)) then Opened(dto) else Done(dto, BadRequest)
    case CheckKey =>
      var dto := s.posts[p].dto;
      if KeyOf(dto) in s.keys then Done(dto, Cached(s.keys[KeyOf(dto)])) else Checked(dto)
    case InsertHeader(entry) => Writing(s.posts[p].dto, entry, [])
    case InsertNextLine =>
      var tx := s.posts[p];
      (match InsertLine(cfg.chart, tx.dto.tenant, tx.dto.lines[|tx.lines|])
       case None => Done(tx.dto, Failed)
       case Some(line) => Writing(tx.dto, tx.entry, tx.lines + [line]))
    case InsertKey =>
      var tx := s.posts[p];
      if KeyOf(tx.dto) in s.keys then Done(tx.dto, Conflict) else Keyed(tx.dto, tx.entry, tx.lines)
    case InsertEvent(event, created) =>
      var tx := s.posts[p];
      Enqueued(tx.dto, tx.entry, tx.lines, event, created)
    case Commit(acked) =>
      var tx := s.posts[p];
      Done(tx.dto, if acked && LinesBalanced(tx.lines) then Posted(tx.entry) else Failed)
    case Abort => Done(s.posts[p].dto, Failed)
  }

  /** A commit that passes the deferred trigger, which checks the lines of the entry. */
  predicate Commits(s: State, p: PostId, act: PostAction)
  {
    act.Commit? && p in s.posts && s.posts[p].Enqueued? && LinesBalanced(s.posts[p].lines)
  }

  /** The rows of `tx` become visible together. */
  function Committed(s: State, tx: PostTx): State
    requires tx.Enqueued?
  {
    s.(entries := s.entries[tx.entry := Entry(tx.dto.tenant, tx.lines)],
       keys := s.keys[KeyOf(tx.dto) := tx.entry],
       events := s.events[tx.event := Event(tx.dto.tenant, tx.created, JournalPosted, Some(tx.entry), Pending)],
       origin := s.origin[tx.entry := Origin(KeyOf(tx.dto), tx.event)])
  }

  function PostApply(cfg: Config, s: State, p: PostId, act: PostAction): State
    requires PostEnabled(cfg, s, p, act)
  {
    (if Commits(s, p, act) then Committed(s, s.posts[p]) else s)
      .(posts := s.posts[p := TxAfter(cfg, s, p, act)],
        usedEntries := if act.InsertHeader? then s.usedEntries + {act.entry} else s.usedEntries,
        usedEvents := if act.InsertEvent? then s.usedEvents + {act.event} else s.usedEvents)
  }

  /* ----- Relay and projection ----- */

  predicate Busy(wk: Worker)
  {
    wk.phase.Dispatching? && wk.phase.rows != []
  }

  predicate HoldsProjection(wk: Worker)
  {
    Busy(wk) && wk.phase.stage.Upserting?
  }

  function Head(wk: Worker): EventId
    requires Busy(wk)
  {
    wk.phase.rows[0]
  }

  function At(wk: Worker, stage: Stage): Worker
    requires wk.phase.Dispatching?
  {
    wk.(phase := wk.phase.(stage := stage))
  }

  /** The first row is settled; the loop goes on with the next one. */
  function NextRow(wk: Worker, success: bool): Worker
    requires Busy(wk)
  {
    wk.(phase := Dispatching(wk.phase.rows[1..], if success then wk.phase.ok + {Head(wk)} else wk.phase.ok, ToPublish))
  }

  /** The entry an event asks to project; events of other kinds and without aggregate are skipped. */
  function TargetOf(events: map<EventId, Event>, id: EventId): Option<EntryId>
  {
    if id in events && events[id].kind == JournalPosted then events[id].aggregate else None
  }

  /** Another process holds an uncommitted ledger_projection row for `entry`. */
  predicate EntryLocked(s: State, w: WorkerId, entry: EntryId)
  {
    exists v :: v in s.workers && v != w && HoldsProjection(s.workers[v]) &&
                TargetOf(s.events, Head(s.workers[v])) == Some(entry)
  }

  /** Another process has written the balance row of `slot` and not yet committed. */
  predicate SlotLocked(s: State, w: WorkerId, slot: Slot)
  {
    exists v :: v in s.workers && v != w && HoldsProjection(s.workers[v]) && slot in s.workers[v].phase.stage.writes
  }

  predicate InProjection(stage: Stage)
  {
    stage.Delivered? || stage.Loaded? || stage.Guarded? || stage.Upserting?
  }

  /** What the upsert of the next line writes: it sees the transaction's own writes first. */
  function NextWrite(s: State, stage: Stage): Balance
    requires stage.Upserting? && stage.done < |stage.lines|
  {
    var slot := SlotOf(stage.lines[stage.done]);
    Upserted(Lookup(if slot in stage.writes then stage.writes else s.balances, slot), stage.lines[stage.done])
  }

  ghost predicate WorkEnabled(cfg: Config, s: State, w: WorkerId, job: WorkerAction)
  {
    && w in s.workers
    && var wk := s.workers[w];
       match job
       case StartPoll => wk.phase.Idle?
       case Claim(claimed, locked) => wk.phase.Polling?
           && IsClaim(s.events, wk.phase.excluded, locked, cfg.batchSize, claimed)
       case Publish(_) => Busy(wk) && wk.phase.stage.ToPublish?
       case Load => Busy(wk) && wk.phase.stage.Delivered?
       case Guard => Busy(wk) && wk.phase.stage.Loaded?
       // ON CONFLICT waits for an uncommitted row with the same key.
       case Insert =>
         && Busy(wk) && wk.phase.stage.Guarded?
         && var target := TargetOf(s.events, Head(wk));
            && target.Some?
            && (target.value in s.projected ||
                (!EntryLocked(s, w, target.value) && target.value in s.entries &&
                 FitsProjected(ProjectedRow(s.entries[target.value].tenant, wk.phase.stage.lines))))
       // An upsert waits for the row lock of another transaction.
       case Upsert =>
         && HoldsProjection(wk) && wk.phase.stage.done < |wk.phase.stage.lines|
         && !SlotLocked(s, w, SlotOf(wk.phase.stage.lines[wk.phase.stage.done]))
         && FitsBalance(NextWrite(s, wk.phase.stage))
       case CommitProjection(_) =>
         && HoldsProjection(wk) && wk.phase.stage.done == |wk.phase.stage.lines|
         && TargetOf(s.events, Head(wk)).Some? && TargetOf(s.events, Head(wk)).value in s.entries
       case ProjectionError => Busy(wk) && InProjection(wk.phase.stage)
       case HandleFailure(jitter, _) =>
         Busy(wk) && wk.phase.stage.Failing? && 0.0 <= jitter <= cfg.jitterRatio * cfg.base as real
       case Finish(_) => wk.phase.Dispatching? && wk.phase.rows == []
       // A failed claim, dead-letter update or mark escapes processOnce and ends the batch.
       case BatchError =>
         || wk.phase.Polling?
         || (Busy(wk) && wk.phase.stage.Failing? && GiveUp(cfg, wk.backoff, Head(wk)))
         || (wk.phase.Dispatching? && wk.phase.rows == [] && wk.phase.ok != {})
       case Crash => true
  }

  function Finished(wk: Worker, now: real): Worker
    requires wk.phase.Dispatching?
  {
    wk.(phase := Idle, backoff := Cleaned(wk.backoff, wk.phase.ok, now))
  }

  function Sent(wk: Worker, id: EventId): nat
  {
    if id in wk.sent then wk.sent[id] else 0
  }

  /** handleFailure gives up on the first row. */
  predicate GivesUp(cfg: Config, wk: Worker)
    requires Busy(wk)
  {
    GiveUp(cfg, wk.backoff, Head(wk))
  }

  /** The process after a job. */
  ghost function WorkerAfter(cfg: Config, s: State, w: WorkerId, job: WorkerAction): Worker
    requires WorkEnabled(cfg, s, w, job)
  {
    var wk := s.workers[w];
    match job
    case StartPoll => wk.(phase := Polling(Excluded(wk.backoff, s.now)))
    case Claim(claimed, _) => wk.(phase := if claimed == [] then Idle else Dispatching(claimed, {}, ToPublish))
    case Publish(success) =>
      At(wk.(sent := wk.sent[Head(wk) := Sent(wk, Head(wk)) + 1]), if success then Delivered else Failing)
    case Load =>
      var target := TargetOf(s.events, Head(wk));
      if target.None? || target.value !in s.entries then NextRow(wk, true)
          else At(wk, Loaded(s.entries[target.value].lines))
    case Guard =>
      var target := TargetOf(s.events, Head(wk));
      if target.Some? && target.value in s.projected then NextRow(wk, true) else At(wk, Guarded(wk.phase.stage.lines))
    case Insert =>
      var target := TargetOf(s.events, Head(wk));
      if target.value in s.projected then NextRow(wk, true) else At(wk, Upserting(wk.phase.stage.lines, 0, map[]))
    case Upsert =>
      var st := wk.phase.stage;
      At(wk, Upserting(st.lines, st.done + 1, st.writes[SlotOf(st.lines[st.done]) := NextWrite(s, st)]))
    case CommitProjection(acked) => if acked then NextRow(wk, true) else At(wk, Failing)
    case ProjectionError => At(wk, Failing)
    case HandleFailure(jitter, acked) =>
      if !GivesUp(cfg, wk) then NextRow(wk.(backoff := RetryLater(cfg, wk.backoff, Head(wk), s.now, jitter)), false)
      else if acked then NextRow(wk.(backoff := wk.backoff - {Head(wk)}), false)
      else wk.(phase := Idle)
    case Finish(acked) => if acked || wk.phase.ok == {} then Finished(wk, s.now) else wk.(phase := Idle)
    case BatchError => wk.(phase := Idle)
    case Crash => FRESH_WORKER
  }

  ghost function EventsAfter(cfg: Config, s: State, w: WorkerId, job: WorkerAction): map<EventId, Event>
    requires WorkEnabled(cfg, s, w, job)
  {
    var wk := s.workers[w];
    if job.HandleFailure? && GivesUp(cfg, wk) then Resolve(s.events, {Head(wk)}, DeadLetter)
    else if job.Finish? then Resolve(s.events, wk.phase.ok, Published)
    else s.events
  }

  ghost function DeliveredAfter(cfg: Config, s: State, w: WorkerId, job: WorkerAction): set<EventId>
    requires WorkEnabled(cfg, s, w, job)
  {
    if job.Publish? && job.success then s.delivered + {Head(s.workers[w])} else s.delivered
  }

  /** COMMIT of a projection: its ledger_projection row and its balance rows land together. */
  ghost function Projecting(cfg: Config, s: State, w: WorkerId): State
    requires WorkEnabled(cfg, s, w, CommitProjection(true))
  {
    var wk := s.workers[w];
    var entry := TargetOf(s.events, Head(wk)).value;
    s.(projected := s.projected[entry := ProjectedRow(s.entries[entry].tenant, wk.phase.stage.lines)],
       balances := s.balances + wk.phase.stage.writes)
  }

  ghost function WorkApply(cfg: Config, s: State, w: WorkerId, job: WorkerAction): State
    requires WorkEnabled(cfg, s, w, job)
  {
    (if job.CommitProjection? then Projecting(cfg, s, w) else s)
      .(workers := s.workers[w := WorkerAfter(cfg, s, w, job)],
        events := EventsAfter(cfg, s, w, job),
        delivered := DeliveredAfter(cfg, s, w, job))
  }

  /* ----- The machine ----- */

  ghost predicate Enabled(cfg: Config, s: State, step: Step)
  {
    match step
    case Post(p, act) => PostEnabled(cfg, s, p, act)
    case Work(w, job) => WorkEnabled(cfg, s, w, job)
    case OtherEvent(event, _, _, _) => event !in s.usedEvents
    case Tick(elapsed) => elapsed >= 0.0
  }

  ghost function Apply(cfg: Config, s: State, step: Step): State
    requires Enabled(cfg, s, step)
  {
    match step
    case Post(p, act) => PostApply(cfg, s, p, act)
    case Work(w, job) => WorkApply(cfg, s, w, job)
    case OtherEvent(event, tenant, created, aggregate) =>
      s.(events := s.events[event := Event(tenant, created, OtherKind, aggregate, Pending)],
          usedEvents := s.usedEvents + {event})
    case Tick(elapsed) => s.(now := s.now + elapsed)
  }

  ghost predicate Next(cfg: Config, s: State, step: Step, s': State)
  {
    Enabled(cfg, s, step) && s' == Apply(cfg, s, step)
  }

  /** A finite run: `states` has one more element than `steps`. */
  ghost predicate Run(cfg: Config, states: seq<State>, steps: seq<Step>)
  {
    && ConfigOk(cfg)
    && |states| == |steps| + 1
    && Init(states[0])
    && forall i :: 0 <= i < |steps| ==> Next(cfg, states[i], steps[i], states[i + 1])
  }
}
