/**
 * Every step keeps the balance invariant: row locks make the uncommitted upserts of a projection add
 * up correctly, and its commit moves the balances from one exact sum to the next.
 */
module BalanceProof {
  import opened Sums
  import opened Legs
  import opened Types
  import opened Schema
  import opened Pipeline
  import opened PipelineInvariants
  import RelayProof

  /* ----- One transaction's own writes ----- */

  lemma NextPart(lines: seq<Line>, n: nat, slot: Slot)
    requires n < |lines|
    ensures var line := lines[n];
            && SumUpTo(ParsedLegs(lines), n + 1, slot, true) == SumUpTo(ParsedLegs(lines), n, slot, true)
                 + (if SlotOf(line) == slot && line.direction == Debit then Parsed(line) else 0)
            && SumUpTo(ParsedLegs(lines), n + 1, slot, false) == SumUpTo(ParsedLegs(lines), n, slot, false)
                 + (if SlotOf(line) == slot && line.direction == Credit then Parsed(line) else 0)
  {
  }

  lemma PostsNext(lines: seq<Line>, n: nat, slot: Slot, currency: string)
    requires n < |lines|
    requires Posts(lines, n, slot, currency) || (SlotOf(lines[n]) == slot && lines[n].currency == currency)
    ensures Posts(lines, n + 1, slot, currency)
  {
  }

  lemma UpsertOther(balances: map<Slot, Balance>, st: Stage, st': Stage, slot: Slot)
    requires st.Upserting? && st.done < |st.lines| && slot in st.writes && WriteOk(balances, st, slot)
    requires SlotOf(st.lines[st.done]) != slot
    requires st'.Upserting? && st'.lines == st.lines && st'.done == st.done + 1
    requires slot in st'.writes && st'.writes[slot] == st.writes[slot]
    ensures WriteOk(balances, st', slot)
  {
    NextPart(st.lines, st.done, slot);
    if slot !in balances {
      PostsNext(st.lines, st.done, slot, st.writes[slot].currency);
    }
  }

  /** The line's slot was already written by the same transaction. */
  lemma UpsertAgain(s: State, st: Stage, st': Stage)
    requires st.Upserting? && st.done < |st.lines| && FitsBalance(NextWrite(s, st))
    requires SlotOf(st.lines[st.done]) in st.writes && WriteOk(s.balances, st, SlotOf(st.lines[st.done]))
    requires st' == Upserting(st.lines, st.done + 1, st.writes[SlotOf(st.lines[st.done]) := NextWrite(s, st)])
    ensures WriteOk(s.balances, st', SlotOf(st.lines[st.done]))
  {
    var slot := SlotOf(st.lines[st.done]);
    NextPart(st.lines, st.done, slot);
    if slot !in s.balances {
      PostsNext(st.lines, st.done, slot, st.writes[slot].currency);
    }
  }

  /** The line's slot is new to the transaction. */
  lemma UpsertFirst(s: State, st: Stage, st': Stage)
    requires st.Upserting? && st.done < |st.lines| && FitsBalance(NextWrite(s, st))
    requires forall i :: 0 <= i < st.done ==> SlotOf(st.lines[i]) in st.writes
    requires SlotOf(st.lines[st.done]) !in st.writes
    requires st' == Upserting(st.lines, st.done + 1, st.writes[SlotOf(st.lines[st.done]) := NextWrite(s, st)])
    ensures WriteOk(s.balances, st', SlotOf(st.lines[st.done]))
  {
    var slot := SlotOf(st.lines[st.done]);
    NextPart(st.lines, st.done, slot);
    var legs := ParsedLegs(st.lines);
    assert forall i :: 0 <= i < st.done ==> legs[i].key == SlotOf(st.lines[i]);
    UntouchedIsZero(legs, st.done, slot, true);
    UntouchedIsZero(legs, st.done, slot, false);
    if slot !in s.balances {
      PostsNext(st.lines, st.done, slot, st.lines[st.done].currency);
    }
  }

  lemma UpsertKeepsWrite(s: State, st: Stage, st': Stage, slot: Slot)
    requires st.Upserting? && st.done < |st.lines| && WritesOk(s.balances, st) && FitsBalance(NextWrite(s, st))
    requires st' == Upserting(st.lines, st.done + 1, st.writes[SlotOf(st.lines[st.done]) := NextWrite(s, st)])
    requires slot in st'.writes
    ensures WriteOk(s.balances, st', slot)
    ensures exists i :: 0 <= i < st'.done && SlotOf(st'.lines[i]) == slot
  {
    if slot != SlotOf(st.lines[st.done]) {
      UpsertOther(s.balances, st, st', slot);
      var i :| 0 <= i < st.done && SlotOf(st.lines[i]) == slot;
      assert SlotOf(st'.lines[i]) == slot;
    } else {
      if slot in st.writes { UpsertAgain(s, st, st'); } else { UpsertFirst(s, st, st'); }
      assert SlotOf(st'.lines[st.done]) == slot;
    }
  }

  lemma UpsertKeepsWrites(s: State, st: Stage, st': Stage)
    requires st.Upserting? && st.done < |st.lines| && WritesOk(s.balances, st) && FitsBalance(NextWrite(s, st))
    requires st' == Upserting(st.lines, st.done + 1, st.writes[SlotOf(st.lines[st.done]) := NextWrite(s, st)])
    ensures WritesOk(s.balances, st')
  {
    forall slot | slot in st'.writes
      ensures WriteOk(s.balances, st', slot) && exists i :: 0 <= i < st'.done && SlotOf(st'.lines[i]) == slot
    {
      UpsertKeepsWrite(s, st, st', slot);
    }
  }

  /* ----- In-flight transactions across a step of some process ----- */

  lemma OwnInFlightOk(cfg: Config, s: State, w: WorkerId, job: WorkerAction)
    requires BalanceInv(s) && WorkEnabled(cfg, s, w, job)
    ensures InFlightOk(WorkApply(cfg, s, w, job), WorkerAfter(cfg, s, w, job))
  {
    assert InFlightOk(s, s.workers[w]);
    var wk' := WorkerAfter(cfg, s, w, job);
    if HoldsProjection(wk') {
      assert job.Insert? || job.Upsert?;
      if job.Upsert? {
        UpsertKeepsWrites(s, s.workers[w].phase.stage, wk'.phase.stage);
      }
    }
  }

  lemma OtherInFlightOk(cfg: Config, s: State, w: WorkerId, job: WorkerAction, v: WorkerId)
    requires WorkEnabled(cfg, s, w, job)
    requires v in s.workers && v != w && InFlightOk(s, s.workers[v]) && InFlightOk(s, s.workers[w])
    requires BatchOk(s, s.workers[v]) && Exclusive(s, s.workers[v], s.workers[w])
    ensures InFlightOk(WorkApply(cfg, s, w, job), s.workers[v])
  {
    var s' := WorkApply(cfg, s, w, job);
    var wk := s.workers[v];
    if HoldsProjection(wk) {
      WorkFrames(cfg, s, w, job);
      RelayProof.TargetStays(s, s', Head(wk));
      if job.CommitProjection? {
        assert forall slot :: slot in wk.phase.stage.writes ==> Lookup(s'.balances, slot) == Lookup(s.balances, slot);
        WritesFrame(s.balances, s'.balances, wk.phase.stage);
      }
    }
  }

  lemma WritesFrame(balances: map<Slot, Balance>, balances': map<Slot, Balance>, st: Stage)
    requires st.Upserting? && WritesOk(balances, st)
    requires forall slot :: slot in st.writes ==> Lookup(balances', slot) == Lookup(balances, slot)
    ensures WritesOk(balances', st)
  {
    forall slot | slot in st.writes
      ensures WriteOk(balances', st, slot)
    {
      assert WriteOk(balances, st, slot) && Lookup(balances', slot) == Lookup(balances, slot);
    }
  }

  lemma StillExclusive(cfg: Config, s: State, w: WorkerId, job: WorkerAction, v: WorkerId)
    requires WorkEnabled(cfg, s, w, job)
    requires v in s.workers && v != w && BatchOk(s, s.workers[v]) && BatchOk(s, s.workers[w])
    requires Exclusive(s, s.workers[v], s.workers[w])
    ensures Exclusive(WorkApply(cfg, s, w, job), s.workers[v], WorkerAfter(cfg, s, w, job))
    ensures Exclusive(WorkApply(cfg, s, w, job), WorkerAfter(cfg, s, w, job), s.workers[v])
  {
    var s' := WorkApply(cfg, s, w, job);
    var a, b := s.workers[v], WorkerAfter(cfg, s, w, job);
    if HoldsProjection(a) && HoldsProjection(b) {
      assert job.Insert? || job.Upsert?;
      assert s'.events == s.events;
      if job.Insert? {
        assert TargetOf(s.events, Head(a)) != TargetOf(s.events, Head(b));
      } else {
        assert SlotOf(s.workers[w].phase.stage.lines[s.workers[w].phase.stage.done]) !in a.phase.stage.writes;
      }
    }
  }

  lemma ExclusiveFrame(s: State, s': State, a: Worker, b: Worker)
    requires EventsProgress(s.events, s'.events) && BatchOk(s, a) && BatchOk(s, b) && Exclusive(s, a, b)
    ensures Exclusive(s', a, b)
  {
    if HoldsProjection(a) && HoldsProjection(b) {
      RelayProof.TargetStays(s, s', Head(a));
      RelayProof.TargetStays(s, s', Head(b));
    }
  }

  /* ----- Committed rows ----- */

  lemma SumOverGrows(entries: map<EntryId, Entry>, entries': map<EntryId, Entry>, es: set<EntryId>, slot: Slot,
          debit: bool)
    requires Keeps(entries, entries') && es <= entries.Keys
    ensures SumOver(entries', es, slot, debit) == SumOver(entries, es, slot, debit)
  {
    SetSumEqual(es, (e: EntryId) => EntrySum(entries', e, slot, debit),
        (e: EntryId) => EntrySum(entries, e, slot, debit));
  }

  lemma SumOverInsert(entries: map<EntryId, Entry>, es: set<EntryId>, e: EntryId, slot: Slot, debit: bool)
    requires e !in es
    ensures SumOver(entries, es + {e}, slot, debit)
        == SumOver(entries, es, slot, debit) + EntrySum(entries, e, slot, debit)
  {
    SetSumInsert(es, e, (x: EntryId) => EntrySum(entries, x, slot, debit));
  }

  lemma UntouchedEntry(entries: map<EntryId, Entry>, e: EntryId, slot: Slot, debit: bool)
    requires e in entries
    requires forall i :: 0 <= i < |entries[e].lines| ==> SlotOf(entries[e].lines[i]) != slot
    ensures EntrySum(entries, e, slot, debit) == 0
  {
    var legs := ParsedLegs(entries[e].lines);
    assert forall i :: 0 <= i < |legs| ==> legs[i].key == SlotOf(entries[e].lines[i]);
    UntouchedIsZero(legs, |legs|, slot, debit);
  }

  /** A slot without a row has received nothing. */
  lemma NoRowNoSum(s: State, slot: Slot, debit: bool)
    requires slot !in s.balances && RowsOk(s)
    ensures SumOver(s.entries, s.projected.Keys, slot, debit) == 0
  {
    forall e | e in s.projected.Keys
      ensures EntrySum(s.entries, e, slot, debit) == 0
    {
      assert RowsPresent(s, e);
      UntouchedEntry(s.entries, e, slot, debit);
    }
    SetSumZero(s.projected.Keys, (e: EntryId) => EntrySum(s.entries, e, slot, debit));
  }

  lemma PostsCurrencyStays(s: State, s': State, slot: Slot, currency: string)
    requires Keeps(s.entries, s'.entries) && Keeps(s.projected, s'.projected)
    requires exists e :: PostsCurrency(s, e, slot, currency)
    ensures exists e :: PostsCurrency(s', e, slot, currency)
  {
    var e :| PostsCurrency(s, e, slot, currency);
    assert PostsCurrency(s', e, slot, currency);
  }

  /** The state right before and after a projection commits. */
  ghost predicate CommitPoint(s: State, s': State, st: Stage, e: EntryId)
  {
    && st.Upserting? && st.done == |st.lines| && WritesOk(s.balances, st)
    && e in s.entries && e !in s.projected && s.entries[e].lines == st.lines
    && s'.entries == s.entries && s'.projected.Keys == s.projected.Keys + {e}
    && Keeps(s.projected, s'.projected) && s'.balances == s.balances + st.writes
    && RowsOk(s)
  }

  lemma CommitSums(s: State, s': State, st: Stage, e: EntryId, slot: Slot, debit: bool)
    requires CommitPoint(s, s', st, e)
    ensures SumOver(s'.entries, s'.projected.Keys, slot, debit)
         == SumOver(s.entries, s.projected.Keys, slot, debit) + SumOn(ParsedLegs(st.lines), slot, debit)
  {
    SumOverInsert(s.entries, s.projected.Keys, e, slot, debit);
  }

  lemma UpdatedRowSums(s: State, s': State, st: Stage, e: EntryId, slot: Slot)
    requires CommitPoint(s, s', st, e) && slot in st.writes && slot in s.balances
    ensures var b := st.writes[slot];
            && b.debit == SumOver(s'.entries, s'.projected.Keys, slot, true)
            && b.credit == SumOver(s'.entries, s'.projected.Keys, slot, false)
            && b.net == b.debit - b.credit && FitsBalance(b) && b.currency == s.balances[slot].currency
  {
    assert WriteOk(s.balances, st, slot);
    CommitSums(s, s', st, e, slot, true);
    CommitSums(s, s', st, e, slot, false);
    assert RowOk(s, slot);
  }

  lemma UpdatedRowOk(s: State, s': State, st: Stage, e: EntryId, slot: Slot)
    requires CommitPoint(s, s', st, e) && slot in st.writes && slot in s.balances
    ensures RowOk(s', slot)
  {
    UpdatedRowSums(s, s', st, e, slot);
    assert RowOk(s, slot) && WriteOk(s.balances, st, slot);
    PostsCurrencyStays(s, s', slot, s.balances[slot].currency);
  }

  lemma NewRowOk(s: State, s': State, st: Stage, e: EntryId, slot: Slot)
    requires CommitPoint(s, s', st, e) && slot in st.writes && slot !in s.balances
    ensures RowOk(s', slot)
  {
    assert WriteOk(s.balances, st, slot);
    CommitSums(s, s', st, e, slot, true);
    CommitSums(s, s', st, e, slot, false);
    NoRowNoSum(s, slot, true);
    NoRowNoSum(s, slot, false);
    assert PostsCurrency(s', e, slot, st.writes[slot].currency);
  }

  lemma WrittenRowOk(s: State, s': State, st: Stage, e: EntryId, slot: Slot)
    requires CommitPoint(s, s', st, e) && slot in st.writes
    ensures RowOk(s', slot)
  {
    if slot in s.balances {
      UpdatedRowOk(s, s', st, e, slot);
    } else {
      NewRowOk(s, s', st, e, slot);
    }
  }

  lemma UnwrittenRowOk(s: State, s': State, st: Stage, e: EntryId, slot: Slot)
    requires CommitPoint(s, s', st, e) && slot in s.balances && slot !in st.writes
    ensures RowOk(s', slot)
  {
    assert RowOk(s, slot);
    forall i | 0 <= i < |st.lines|
      ensures SlotOf(st.lines[i]) != slot
    {
      assert SlotOf(st.lines[i]) in st.writes;
    }
    UntouchedEntry(s.entries, e, slot, true);
    UntouchedEntry(s.entries, e, slot, false);
    CommitSums(s, s', st, e, slot, true);
    CommitSums(s, s', st, e, slot, false);
    PostsCurrencyStays(s, s', slot, s.balances[slot].currency);
  }

  lemma CommitKeepsRows(s: State, s': State, st: Stage, e: EntryId)
    requires CommitPoint(s, s', st, e)
    ensures RowsOk(s')
  {
    forall slot | slot in s'.balances
      ensures RowOk(s', slot)
    {
      if slot in st.writes { WrittenRowOk(s, s', st, e, slot); } else { UnwrittenRowOk(s, s', st, e, slot); }
    }
    forall x | x in s'.projected
      ensures x in s'.entries && RowsPresent(s', x)
    {
      if x != e { assert RowsPresent(s, x); }
    }
  }

  lemma RowStays(s: State, s': State, slot: Slot)
    requires RowsOk(s) && slot in s.balances
    requires Keeps(s.entries, s'.entries) && s'.projected == s.projected && s'.balances == s.balances
    ensures RowOk(s', slot)
  {
    assert RowOk(s, slot);
    SumOverGrows(s.entries, s'.entries, s.projected.Keys, slot, true);
    SumOverGrows(s.entries, s'.entries, s.projected.Keys, slot, false);
    PostsCurrencyStays(s, s', slot, s.balances[slot].currency);
  }

  lemma RowsFrame(s: State, s': State)
    requires RowsOk(s)
    requires Keeps(s.entries, s'.entries) && s'.projected == s.projected && s'.balances == s.balances
    ensures RowsOk(s')
  {
    forall slot | slot in s'.balances
      ensures RowOk(s', slot)
    {
      RowStays(s, s', slot);
    }
    forall x | x in s'.projected
      ensures x in s'.entries && RowsPresent(s', x)
    {
      assert RowsPresent(s, x);
    }
  }

  lemma CommitIsCommitPoint(cfg: Config, s: State, w: WorkerId, acked: bool)
    requires WorkEnabled(cfg, s, w, CommitProjection(acked))
    requires RowsOk(s) && InFlightOk(s, s.workers[w]) && BatchOk(s, s.workers[w])
    ensures CommitPoint(s, WorkApply(cfg, s, w, CommitProjection(acked)),
                        s.workers[w].phase.stage, TargetOf(s.events, Head(s.workers[w])).value)
  {
  }

  lemma WorkKeepsRows(cfg: Config, s: State, w: WorkerId, job: WorkerAction)
    requires WorkEnabled(cfg, s, w, job)
    requires RowsOk(s) && InFlightOk(s, s.workers[w]) && BatchOk(s, s.workers[w])
    ensures RowsOk(WorkApply(cfg, s, w, job))
  {
    var s' := WorkApply(cfg, s, w, job);
    if job.CommitProjection? {
      CommitIsCommitPoint(cfg, s, w, job.acked);
      CommitKeepsRows(s, s', s.workers[w].phase.stage, TargetOf(s.events, Head(s.workers[w])).value);
    } else {
      assert s'.entries == s.entries && s'.projected == s.projected && s'.balances == s.balances;
      RowsFrame(s, s');
    }
  }

  lemma WorkKeepsBalances(cfg: Config, s: State, w: WorkerId, job: WorkerAction)
    requires RelayInv(s) && BalanceInv(s) && WorkEnabled(cfg, s, w, job)
    ensures BalanceInv(WorkApply(cfg, s, w, job))
  {
    var s' := WorkApply(cfg, s, w, job);
    WorkFrames(cfg, s, w, job);
    assert InFlightOk(s, s.workers[w]) && BatchOk(s, s.workers[w]);
    WorkKeepsRows(cfg, s, w, job);
    forall v | v in s'.workers
      ensures InFlightOk(s', s'.workers[v])
    {
      if v == w {
        OwnInFlightOk(cfg, s, w, job);
      } else {
        assert Exclusive(s, s.workers[v], s.workers[w]);
        OtherInFlightOk(cfg, s, w, job, v);
      }
    }
    forall u, v | u in s'.workers && v in s'.workers && u != v
      ensures Exclusive(s', s'.workers[u], s'.workers[v])
    {
      assert Exclusive(s, s.workers[u], s.workers[v]) && Exclusive(s, s.workers[v], s.workers[u]);
      if v == w { StillExclusive(cfg, s, w, job, u); }
      else if u == w { StillExclusive(cfg, s, w, job, v); }
      else { ExclusiveFrame(s, s', s.workers[u], s.workers[v]); }
    }
  }

  /** A step of a posting transaction, an unrelated event or the clock. */
  lemma BalanceFrame(s: State, s': State)
    requires RelayInv(s) && BalanceInv(s) && Extends(s, s')
    requires s'.workers == s.workers && s'.projected == s.projected && s'.balances == s.balances
    ensures BalanceInv(s')
  {
    RowsFrame(s, s');
    forall w | w in s'.workers
      ensures InFlightOk(s', s'.workers[w])
    {
      assert InFlightOk(s, s.workers[w]);
      if HoldsProjection(s.workers[w]) {
        RelayProof.TargetStays(s, s', Head(s.workers[w]));
      }
    }
    forall u, v | u in s'.workers && v in s'.workers && u != v
      ensures Exclusive(s', s'.workers[u], s'.workers[v])
    {
      ExclusiveFrame(s, s', s.workers[u], s.workers[v]);
    }
  }
}
