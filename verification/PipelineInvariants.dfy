/** What holds in every reachable state of the pipeline, and the proof that every step keeps it. */
module PipelineInvariants {
  import opened Wrappers
  import opened Sums
  import opened Legs
  import opened Schema
  import opened Pipeline

  /* ----- Journal: entries, keys and events written by one transaction belong together ----- */

  predicate LineOk(chart: Chart, tenant: TenantId, line: Line)
  {
    && line.tenant == tenant
    && line.account in chart.accounts && chart.accounts[line.account].tenant == tenant
    && FitsAmount(line.amount)
  }

  predicate EntryOk(chart: Chart, entry: Entry)
  {
    && LinesBalanced(entry.lines)
    && forall i :: 0 <= i < |entry.lines| ==> LineOk(chart, entry.tenant, entry.lines[i])
  }

  ghost predicate Anchored(cfg: Config, s: State, e: EntryId)
    requires e in s.entries && e in s.origin
  {
    var o := s.origin[e];
    && EntryOk(cfg.chart, s.entries[e])
    && o.key in s.keys && s.keys[o.key] == e && o.key.tenant == s.entries[e].tenant
    && o.event in s.events && TargetOf(s.events, o.event) == Some(e) && s.events[o.event].tenant == s.entries[e].tenant
  }

  ghost predicate EntriesAnchored(cfg: Config, s: State)
  {
    s.origin.Keys == s.entries.Keys && forall e :: e in s.entries ==> Anchored(cfg, s, e)
  }

  ghost predicate KeysAnchored(s: State)
  {
    forall k :: k in s.keys ==> s.keys[k] in s.origin && s.origin[s.keys[k]].key == k
  }

  ghost predicate EventsAnchored(s: State)
  {
    forall v :: v in s.events && s.events[v].kind == JournalPosted ==>
      s.events[v].aggregate.Some? && s.events[v].aggregate.value in s.origin
          && s.origin[s.events[v].aggregate.value].event == v
  }

  ghost predicate JournalInv(cfg: Config, s: State)
  {
    && s.entries.Keys <= s.usedEntries && s.events.Keys <= s.usedEvents
    && EntriesAnchored(cfg, s)
    && KeysAnchored(s)
    && EventsAnchored(s)
  }

  /* ----- Posting transactions in flight ----- */

  predicate LineBuilt(chart: Chart, dto: PostDto, lines: seq<Line>, i: nat)
    requires i < |lines| <= |dto.lines|
  {
    InsertLine(chart, dto.tenant, dto.lines[i]) == Some(lines[i])
  }

  ghost predicate Built(chart: Chart, dto: PostDto, lines: seq<Line>)
  {
    && |lines| <= |dto.lines|
    && forall i :: 0 <= i < |lines| ==> LineBuilt(chart, dto, lines, i)
  }

  ghost predicate TxOk(cfg: Config, s: State, tx: PostTx)
  {
    && (!tx.Done? ==> Balanced(DtoLegs(tx.dto.lines)))
    && (HoldsEntry(tx) ==> tx.entry in s.usedEntries && tx.entry !in s.entries && Built(cfg.chart, tx.dto, tx.lines))
    && (HoldsKey(tx) ==> |tx.lines| == |tx.dto.lines| && KeyOf(tx.dto) !in s.keys)
    && (tx.Enqueued? ==> tx.event in s.usedEvents && tx.event !in s.events)
    && (tx.Done? && tx.reply.Posted? ==> KeyOf(tx.dto) in s.keys && s.keys[KeyOf(tx.dto)] == tx.reply.id)
    && (tx.Done? && tx.reply.Cached? ==> KeyOf(tx.dto) in s.keys && s.keys[KeyOf(tx.dto)] == tx.reply.id)
  }

  predicate Apart(a: PostTx, b: PostTx)
  {
    && (HoldsEntry(a) && HoldsEntry(b) ==> a.entry != b.entry)
    && (HoldsKey(a) && HoldsKey(b) ==> KeyOf(a.dto) != KeyOf(b.dto))
    && (a.Enqueued? && b.Enqueued? ==> a.event != b.event)
  }

  ghost predicate PostsInv(cfg: Config, s: State)
  {
    && (forall p :: p in s.posts ==> TxOk(cfg, s, s.posts[p]))
    && (forall p, q :: p in s.posts && q in s.posts && p != q ==> Apart(s.posts[p], s.posts[q]))
  }

  /* ----- Relay ----- */

  /** Successfully published, and its entry, if it has one, is projected. */
  ghost predicate Settled(s: State, id: EventId)
  {
    && id in s.events && id in s.delivered
    && (TargetOf(s.events, id).Some? ==> TargetOf(s.events, id).value in s.projected)
  }

  predicate HasLines(stage: Stage)
  {
    stage.Loaded? || stage.Guarded? || stage.Upserting?
  }

  ghost predicate BatchOk(s: State, wk: Worker)
  {
    wk.phase.Dispatching? ==>
      var rows, ok, stage := wk.phase.rows, wk.phase.ok, wk.phase.stage;
      && (forall i :: 0 <= i < |rows| ==> rows[i] in s.events && rows[i] !in ok)
      && (forall i, j :: 0 <= i < j < |rows| ==> rows[i] != rows[j])
      && (forall id :: id in ok ==> Settled(s, id))
      && (!stage.ToPublish? ==> rows != [])
      && (InProjection(stage) ==> rows[0] in s.delivered)
      && (HasLines(stage) ==>
            && TargetOf(s.events, rows[0]).Some?
            && TargetOf(s.events, rows[0]).value in s.entries
            && s.entries[TargetOf(s.events, rows[0]).value].lines == stage.lines)
  }

  ghost predicate ProjectedOk(s: State, e: EntryId)
    requires e in s.projected
  {
    && e in s.entries && e in s.origin && s.origin[e].event in s.delivered
    && s.projected[e] == ProjectedRow(s.entries[e].tenant, s.entries[e].lines)
    && FitsProjected(s.projected[e])
  }

  ghost predicate RelayInv(s: State)
  {
    && s.delivered <= s.events.Keys
    && (forall w :: w in s.workers ==> BatchOk(s, s.workers[w]))
    && (forall id :: id in s.events && s.events[id].status == Published ==> Settled(s, id))
    && (forall e :: e in s.projected ==> ProjectedOk(s, e))
  }

  /* ----- Balances ----- */

  function EntrySum(entries: map<EntryId, Entry>, e: EntryId, slot: Slot, debit: bool): int
  {
    if e in entries then SumOn(ParsedLegs(entries[e].lines), slot, debit) else 0
  }

  /** What the lines of the entries in `es` post to `slot` on one side. */
  ghost function SumOver(entries: map<EntryId, Entry>, es: set<EntryId>, slot: Slot, debit: bool): int
  {
    SetSum(es, (e: EntryId) => EntrySum(entries, e, slot, debit))
  }

  predicate Posts(lines: seq<Line>, n: nat, slot: Slot, currency: string)
    requires n <= |lines|
  {
    exists i :: 0 <= i < n && SlotOf(lines[i]) == slot && lines[i].currency == currency
  }

  predicate PostsCurrency(s: State, e: EntryId, slot: Slot, currency: string)
  {
    e in s.projected && e in s.entries && Posts(s.entries[e].lines, |s.entries[e].lines|, slot, currency)
  }

  ghost predicate RowOk(s: State, slot: Slot)
    requires slot in s.balances
  {
    var b := s.balances[slot];
    && b.debit == SumOver(s.entries, s.projected.Keys, slot, true)
    && b.credit == SumOver(s.entries, s.projected.Keys, slot, false)
    && b.net == b.debit - b.credit
    && FitsBalance(b)
    && exists e :: PostsCurrency(s, e, slot, b.currency)
  }

  /** Every line of a projected entry has its balance row. */
  ghost predicate RowsPresent(s: State, e: EntryId)
    requires e in s.entries
  {
    forall i :: 0 <= i < |s.entries[e].lines| ==> SlotOf(s.entries[e].lines[i]) in s.balances
  }

  /** The uncommitted write on `slot` is the committed row plus the first `done` lines. */
  ghost predicate WriteOk(balances: map<Slot, Balance>, stage: Stage, slot: Slot)
    requires stage.Upserting? && slot in stage.writes && stage.done <= |stage.lines|
  {
    var b := stage.writes[slot];
    var legs := ParsedLegs(stage.lines);
    && b.debit == (if slot in balances then balances[slot].debit else 0) + SumUpTo(legs, stage.done, slot, true)
    && b.credit == (if slot in balances then balances[slot].credit else 0) + SumUpTo(legs, stage.done, slot, false)
    && b.net == (if slot in balances then balances[slot].net else 0)
                + SumUpTo(legs, stage.done, slot, true) - SumUpTo(legs, stage.done, slot, false)
    && FitsBalance(b)
    && (slot in balances ==> b.currency == balances[slot].currency)
    && (slot !in balances ==> Posts(stage.lines, stage.done, slot, b.currency))
  }

  ghost predicate WritesOk(balances: map<Slot, Balance>, stage: Stage)
    requires stage.Upserting?
  {
    && stage.done <= |stage.lines|
    && (forall i :: 0 <= i < stage.done ==> SlotOf(stage.lines[i]) in stage.writes)
    && (forall slot :: slot in stage.writes ==>
          WriteOk(balances, stage, slot) && exists i :: 0 <= i < stage.done && SlotOf(stage.lines[i]) == slot)
  }

  ghost predicate InFlightOk(s: State, wk: Worker)
  {
    HoldsProjection(wk) ==>
      && TargetOf(s.events, Head(wk)).Some?
      && TargetOf(s.events, Head(wk)).value in s.entries
      && TargetOf(s.events, Head(wk)).value !in s.projected
      && FitsProjected(ProjectedRow(s.entries[TargetOf(s.events, Head(wk)).value].tenant, wk.phase.stage.lines))
      && WritesOk(s.balances, wk.phase.stage)
  }

  ghost predicate Exclusive(s: State, a: Worker, b: Worker)
  {
    HoldsProjection(a) && HoldsProjection(b) ==>
      && TargetOf(s.events, Head(a)) != TargetOf(s.events, Head(b))
      && a.phase.stage.writes.Keys !! b.phase.stage.writes.Keys
  }

  ghost predicate RowsOk(s: State)
  {
    && (forall slot :: slot in s.balances ==> RowOk(s, slot))
    && (forall e :: e in s.projected ==> e in s.entries && RowsPresent(s, e))
  }

  ghost predicate BalanceInv(s: State)
  {
    && (forall w :: w in s.workers ==> InFlightOk(s, s.workers[w]))
    && (forall v, w :: v in s.workers && w in s.workers && v != w ==> Exclusive(s, s.workers[v], s.workers[w]))
    && RowsOk(s)
  }

  ghost predicate Inv(cfg: Config, s: State)
  {
    JournalInv(cfg, s) && PostsInv(cfg, s) && RelayInv(s) && BalanceInv(s)
  }

  /* ----- What every step leaves in place ----- */

  predicate Progress(a: Event, b: Event)
  {
    b == a.(status := b.status) && (a.status == Pending || b.status == a.status)
  }

  ghost predicate Keeps<K(!new), V(!new)>(m: map<K, V>, m': map<K, V>)
  {
    forall k :: k in m ==> k in m' && m'[k] == m[k]
  }

  ghost predicate EventsProgress(events: map<EventId, Event>, events': map<EventId, Event>)
  {
    forall id :: id in events ==> id in events' && Progress(events[id], events'[id])
  }

  ghost predicate RepliesStay(posts: map<PostId, PostTx>, posts': map<PostId, PostTx>)
  {
    forall p :: p in posts && posts[p].Done? ==> p in posts' && posts'[p] == posts[p]
  }

  /** Rows are only added; an event changes only its status, and only while pending. */
  ghost predicate Extends(s: State, s': State)
  {
    && s.now <= s'.now
    && Keeps(s.entries, s'.entries)
    && Keeps(s.keys, s'.keys)
    && Keeps(s.origin, s'.origin)
    && Keeps(s.projected, s'.projected)
    && EventsProgress(s.events, s'.events)
    && s.delivered <= s'.delivered
    && RepliesStay(s.posts, s'.posts)
  }

  /** A relay step touches neither the journal nor the posting transactions nor the other processes. */
  ghost predicate WorkFrame(s: State, w: WorkerId, s': State)
  {
    && s'.entries == s.entries && s'.keys == s.keys && s'.origin == s.origin && s'.posts == s.posts && s'.now == s.now
    && s'.usedEntries == s.usedEntries && s'.usedEvents == s.usedEvents
    && s'.workers.Keys == s.workers.Keys
    && (forall v :: v in s.workers && v != w ==> s'.workers[v] == s.workers[v])
    && s'.events.Keys == s.events.Keys
    && EventsProgress(s.events, s'.events)
  }

  lemma WorkFrames(cfg: Config, s: State, w: WorkerId, job: WorkerAction)
    requires WorkEnabled(cfg, s, w, job)
    ensures WorkFrame(s, w, WorkApply(cfg, s, w, job))
  {
  }

  lemma WorkExtends(cfg: Config, s: State, w: WorkerId, job: WorkerAction)
    requires w in s.workers && InFlightOk(s, s.workers[w])
    requires WorkEnabled(cfg, s, w, job)
    ensures Extends(s, WorkApply(cfg, s, w, job))
  {
    WorkFrames(cfg, s, w, job);
  }

  lemma CommittedExtends(cfg: Config, s: State, tx: PostTx)
    requires tx.Enqueued? && TxOk(cfg, s, tx) && s.origin.Keys == s.entries.Keys
    ensures Extends(s, Committed(s, tx))
  {
  }

  lemma PostExtends(cfg: Config, s: State, p: PostId, act: PostAction)
    requires PostEnabled(cfg, s, p, act)
    requires p in s.posts ==> TxOk(cfg, s, s.posts[p])
    requires s.origin.Keys == s.entries.Keys
    ensures Extends(s, PostApply(cfg, s, p, act))
  {
    var s' := PostApply(cfg, s, p, act);
    if Commits(s, p, act) {
      CommittedExtends(cfg, s, s.posts[p]);
    } else {
      assert s'.entries == s.entries && s'.keys == s.keys && s'.origin == s.origin && s'.events == s.events;
    }
    assert RepliesStay(s.posts, s'.posts);
  }

  lemma StepExtends(cfg: Config, s: State, step: Step, s': State)
    requires Inv(cfg, s) && Next(cfg, s, step, s')
    ensures Extends(s, s')
  {
    match step
    case Post(p, act) => PostExtends(cfg, s, p, act);
    case Work(w, job) => WorkExtends(cfg, s, w, job);
    case OtherEvent(event, _, _, _) =>
      assert event !in s.events;
    case Tick(_) =>
  }

  lemma ExtendsTransitive(a: State, b: State, c: State)
    requires Extends(a, b) && Extends(b, c)
    ensures Extends(a, c)
  {
    forall id | id in a.events
      ensures id in c.events && Progress(a.events[id], c.events[id])
    {
      assert Progress(a.events[id], b.events[id]) && Progress(b.events[id], c.events[id]);
    }
  }

  lemma ProjectedEntriesOk(cfg: Config, s: State)
    requires Inv(cfg, s)
    ensures forall e :: e in s.projected.Keys ==> e in s.entries && EntryOk(cfg.chart, s.entries[e])
  {
    forall e | e in s.projected.Keys
      ensures e in s.entries && EntryOk(cfg.chart, s.entries[e])
    {
      assert ProjectedOk(s, e) && Anchored(cfg, s, e);
    }
  }
}
