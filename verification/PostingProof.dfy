/** Posting steps keep the invariants: the journal part of the pipeline proof. */
module PostingProof {
  import opened Wrappers
  import opened Legs
  import opened Schema
  import opened Pipeline
  import opened PipelineInvariants

  lemma BuiltLinesOk(cfg: Config, dto: PostDto, lines: seq<Line>)
    requires ConfigOk(cfg) && Built(cfg.chart, dto, lines)
    ensures forall i :: 0 <= i < |lines| ==> LineOk(cfg.chart, dto.tenant, lines[i])
  {
    forall i | 0 <= i < |lines|
      ensures LineOk(cfg.chart, dto.tenant, lines[i])
    {
      assert LineBuilt(cfg.chart, dto, lines, i);
    }
  }

  lemma CommittedAnchored(cfg: Config, s: State, tx: PostTx)
    requires ConfigOk(cfg) && EntriesAnchored(cfg, s) && TxOk(cfg, s, tx)
    requires tx.Enqueued? && LinesBalanced(tx.lines)
    ensures EntriesAnchored(cfg, Committed(s, tx))
  {
    var s' := Committed(s, tx);
    BuiltLinesOk(cfg, tx.dto, tx.lines);
    assert Anchored(cfg, s', tx.entry);
    forall e | e in s'.entries
      ensures Anchored(cfg, s', e)
    {
      if e != tx.entry {
        assert Anchored(cfg, s, e);
      }
    }
  }

  lemma CommittedIndexes(cfg: Config, s: State, tx: PostTx)
    requires KeysAnchored(s) && EventsAnchored(s) && TxOk(cfg, s, tx) && s.origin.Keys == s.entries.Keys
    requires tx.Enqueued?
    ensures KeysAnchored(Committed(s, tx)) && EventsAnchored(Committed(s, tx))
  {
  }

  lemma CommittedKeepsJournal(cfg: Config, s: State, tx: PostTx)
    requires ConfigOk(cfg) && JournalInv(cfg, s) && TxOk(cfg, s, tx)
    requires tx.Enqueued? && LinesBalanced(tx.lines)
    ensures JournalInv(cfg, Committed(s, tx))
  {
    CommittedAnchored(cfg, s, tx);
    CommittedIndexes(cfg, s, tx);
  }

  /** A posting step changes the journal tables only by a passing commit. */
  lemma PostTables(cfg: Config, s: State, p: PostId, act: PostAction)
    requires PostEnabled(cfg, s, p, act)
    ensures var base, s' := if Commits(s, p, act) then Committed(s, s.posts[p]) else s, PostApply(cfg, s, p, act);
            && s'.entries == base.entries && s'.keys == base.keys && s'.origin == base.origin
                && s'.events == base.events
            && s.usedEntries <= s'.usedEntries && s.usedEvents <= s'.usedEvents
  {
  }

  lemma PostKeepsJournal(cfg: Config, s: State, p: PostId, act: PostAction)
    requires ConfigOk(cfg) && JournalInv(cfg, s) && PostEnabled(cfg, s, p, act)
    requires p in s.posts ==> TxOk(cfg, s, s.posts[p])
    ensures JournalInv(cfg, PostApply(cfg, s, p, act))
  {
    PostTables(cfg, s, p, act);
    if Commits(s, p, act) {
      CommittedKeepsJournal(cfg, s, s.posts[p]);
      JournalFrame(cfg, Committed(s, s.posts[p]), PostApply(cfg, s, p, act));
    } else {
      JournalFrame(cfg, s, PostApply(cfg, s, p, act));
    }
  }

  /** The journal invariant reads only the journal tables and the fixed columns of events. */
  lemma JournalFrame(cfg: Config, s: State, s': State)
    requires JournalInv(cfg, s)
    requires s'.entries == s.entries && s'.keys == s.keys && s'.origin == s.origin
    requires s'.events.Keys == s.events.Keys && EventsProgress(s.events, s'.events)
    requires s.usedEntries <= s'.usedEntries && s.usedEvents <= s'.usedEvents
    ensures JournalInv(cfg, s')
  {
    forall e | e in s'.entries
      ensures Anchored(cfg, s', e)
    {
      assert Anchored(cfg, s, e);
      assert Progress(s.events[s.origin[e].event], s'.events[s.origin[e].event]);
    }
    forall v | v in s'.events && s'.events[v].kind == JournalPosted
      ensures s'.events[v].aggregate.Some? && s'.events[v].aggregate.value in s'.origin
           && s'.origin[s'.events[v].aggregate.value].event == v
    {
      assert Progress(s.events[v], s'.events[v]);
    }
  }

  lemma NextLineBuilt(cfg: Config, dto: PostDto, lines: seq<Line>, line: Line)
    requires Built(cfg.chart, dto, lines) && |lines| < |dto.lines|
    requires InsertLine(cfg.chart, dto.tenant, dto.lines[|lines|]) == Some(line)
    ensures Built(cfg.chart, dto, lines + [line])
  {
    forall i | 0 <= i < |lines + [line]|
      ensures LineBuilt(cfg.chart, dto, lines + [line], i)
    {
      if i < |lines| {
        assert LineBuilt(cfg.chart, dto, lines, i);
      }
    }
  }

  /** The transaction that takes the step. */
  lemma OwnTxOk(cfg: Config, s: State, p: PostId, act: PostAction)
    requires PostEnabled(cfg, s, p, act)
    requires p in s.posts ==> TxOk(cfg, s, s.posts[p])
    requires s.entries.Keys <= s.usedEntries && s.events.Keys <= s.usedEvents
    ensures TxOk(cfg, PostApply(cfg, s, p, act), TxAfter(cfg, s, p, act))
  {
    if act.InsertNextLine? {
      var tx := s.posts[p];
      var tx' := TxAfter(cfg, s, p, act);
      if tx'.Writing? {
        NextLineBuilt(cfg, tx.dto, tx.lines, tx'.lines[|tx.lines|]);
      }
    }
  }

  /** Another transaction, which stays out of the way of the one that takes the step. */
  lemma OtherTxOk(cfg: Config, s: State, p: PostId, act: PostAction, q: PostId)
    requires JournalInv(cfg, s) && PostEnabled(cfg, s, p, act)
    requires q in s.posts && p != q && TxOk(cfg, s, s.posts[q])
    requires p in s.posts ==> TxOk(cfg, s, s.posts[p]) && Apart(s.posts[p], s.posts[q])
    ensures TxOk(cfg, PostApply(cfg, s, p, act), s.posts[q])
  {
    if p in s.posts {
      PostExtends(cfg, s, p, act);
    }
  }

  lemma StillApart(cfg: Config, s: State, p: PostId, act: PostAction, q: PostId)
    requires PostEnabled(cfg, s, p, act)
    requires q in s.posts && p != q && TxOk(cfg, s, s.posts[q])
    requires p in s.posts ==> Apart(s.posts[p], s.posts[q])
    ensures Apart(TxAfter(cfg, s, p, act), s.posts[q]) && Apart(s.posts[q], TxAfter(cfg, s, p, act))
  {
  }

  lemma PostKeepsPosts(cfg: Config, s: State, p: PostId, act: PostAction)
    requires ConfigOk(cfg) && JournalInv(cfg, s) && PostsInv(cfg, s) && PostEnabled(cfg, s, p, act)
    ensures PostsInv(cfg, PostApply(cfg, s, p, act))
  {
    var s' := PostApply(cfg, s, p, act);
    OwnTxOk(cfg, s, p, act);
    forall q | q in s.posts && q != p
      ensures TxOk(cfg, s', s'.posts[q]) && Apart(s'.posts[p], s'.posts[q]) && Apart(s'.posts[q], s'.posts[p])
    {
      OtherTxOk(cfg, s, p, act, q);
      StillApart(cfg, s, p, act, q);
    }
  }

  /** Posting transactions see nothing of a step that only adds events or changes their status. */
  lemma PostsFrame(cfg: Config, s: State, s': State)
    requires PostsInv(cfg, s)
    requires s'.posts == s.posts && s'.entries == s.entries && s'.keys == s.keys
    requires s.usedEntries <= s'.usedEntries && s.usedEvents <= s'.usedEvents
    requires forall id :: id in s'.events && id !in s.events ==> id !in s.usedEvents
    ensures PostsInv(cfg, s')
  {
    forall p | p in s'.posts
      ensures TxOk(cfg, s', s'.posts[p])
    {
      assert TxOk(cfg, s, s.posts[p]);
    }
  }

  /** Whoever passes the balance check before the transaction also passes the deferred trigger. */
  lemma TriggerNeverFires(cfg: Config, s: State, tx: PostTx)
    requires TxOk(cfg, s, tx) && HoldsKey(tx)
    ensures LinesBalanced(tx.lines)
  {
    SameSides(cfg, tx.dto, tx.lines, |tx.lines|, true);
    SameSides(cfg, tx.dto, tx.lines, |tx.lines|, false);
  }

  lemma {:induction false} SameSides(cfg: Config, dto: PostDto, lines: seq<Line>, n: nat, debit: bool)
    requires Built(cfg.chart, dto, lines) && n <= |lines|
    ensures SideUpTo(StoredLegs(lines), n, debit) == SideUpTo(DtoLegs(dto.lines), n, debit)
  {
    if n > 0 {
      SameSides(cfg, dto, lines, n - 1, debit);
      assert LineBuilt(cfg.chart, dto, lines, n - 1);
    }
  }
}
