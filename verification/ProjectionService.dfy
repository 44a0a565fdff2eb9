/** The projection service: totals in doubles, guard, insert and upserts of one envelope. */
module ProjectionService {
  import opened Wrappers
  import opened Types
  import opened Legs
  import opened Schema
  import opened Pipeline
  import opened Scripts
  import opened ExactlyOnce
  import opened PipelineInvariants
  import opened PipelineTheorems
  import Doubles

  datatype Envelope = Envelope(tenant: TenantId, kind: EventKind, aggregate: Option<EntryId>)

  /** false, true without effect, true with effect, or a database error. */
  datatype Outcome = Skipped | Already | Projects | Throws

  datatype Tables = Tables(projected: map<EntryId, Projected>, balances: map<Slot, Balance>)

  /** The upserts of the first `n` lines; None when a figure no longer fits its column. */
  function Upserts(balances: map<Slot, Balance>, lines: seq<Line>, n: nat): Option<map<Slot, Balance>>
    requires n <= |lines|
  {
    if n == 0 then Some(balances)
    else
      match Upserts(balances, lines, n - 1)
      case None => None
      case Some(b) =>
        var row := Upserted(Lookup(b, SlotOf(lines[n - 1])), lines[n - 1]);
        if FitsBalance(row) then Some(b[SlotOf(lines[n - 1]) := row]) else None
  }

  /** What one call returns and leaves behind when nothing else runs. */
  function ProjectCall(entries: map<EntryId, Entry>, t: Tables, envelope: Envelope): (Outcome, Tables)
  {
    if envelope.kind != JournalPosted || envelope.aggregate.None?
        || envelope.aggregate.value !in entries then (Skipped, t)
    else
      var e := envelope.aggregate.value;
      var entry := entries[e];
      var row := ProjectedRow(entry.tenant, entry.lines);
      var balances := Upserts(t.balances, entry.lines, |entry.lines|);
      if e in t.projected then (Already, t)
      else if !FitsProjected(row) || balances.None? then (Throws, t)
      else (Projects, Tables(t.projected[e := row], balances.value))
  }

  /* ----- What a caller sees of one call ----- */

  /** With the first `n` lines added, the row of line `n - 1` fits its three NUMERIC(20,4) columns. */
  predicate FitsUpTo(balances: map<Slot, Balance>, lines: seq<Line>, n: nat)
    requires 1 <= n <= |lines|
  {
    var slot := Slot(lines[n - 1].tenant, lines[n - 1].account);
    var (d, c, net) := ReadRow(balances, slot);
    var dr, cr := SumUpTo(ParsedLegs(lines), n, slot, true), SumUpTo(ParsedLegs(lines), n, slot, false);
    && -10000000000000000 < d + dr < 10000000000000000 && -10000000000000000 < c + cr < 10000000000000000
    && -10000000000000000 < net + dr - cr < 10000000000000000
  }

  /** Every figure that posting the lines one by one puts into a row fits. */
  predicate AllFit(balances: map<Slot, Balance>, lines: seq<Line>)
  {
    forall n :: 1 <= n <= |lines| ==> FitsUpTo(balances, lines, n)
  }

  predicate Asked(entries: map<EntryId, Entry>, envelope: Envelope)
  {
    envelope.kind == JournalPosted && envelope.aggregate.Some? && envelope.aggregate.value in entries
  }

  predicate TotalsFit(lines: seq<Line>)
  {
    && FloatTotal(lines, |lines|, Debit) < 10000000000000000
    && FloatTotal(lines, |lines|, Credit) < 10000000000000000
  }

  /** One of the first `n` lines stands on the account of `slot`. */
  predicate Touches(lines: seq<Line>, n: nat, slot: Slot)
    requires n <= |lines|
  {
    exists i :: 0 <= i < n && lines[i].tenant == slot.tenant && lines[i].account == slot.account
  }

  /** `line` is the first of the lines on its account. */
  predicate FirstOn(lines: seq<Line>, i: nat)
    requires i < |lines|
  {
    forall j :: 0 <= j < i ==> lines[j].tenant != lines[i].tenant || lines[j].account != lines[i].account
  }

  /** The rows after posting the lines: no other row than theirs is new, an old row keeps its currency. */
  ghost predicate Raised(balances: map<Slot, Balance>, lines: seq<Line>, n: nat, after: map<Slot, Balance>)
    requires n <= |lines|
  {
    && (forall slot :: slot in after <==> slot in balances || Touches(lines, n, slot))
    && (forall slot :: slot in balances ==> slot in after && after[slot].currency == balances[slot].currency)
    && (forall i :: 0 <= i < n && FirstOn(lines, i) && Slot(lines[i].tenant, lines[i].account) !in balances ==>
         && Slot(lines[i].tenant, lines[i].account) in after
         && after[Slot(lines[i].tenant, lines[i].account)].currency == lines[i].currency)
    && (forall slot :: RaisedRow(balances, lines, n, after, slot))
  }

  /** The row of `slot` is raised by what the first `n` lines post to it. */
  predicate RaisedRow(balances: map<Slot, Balance>, lines: seq<Line>, n: nat, after: map<Slot, Balance>, slot: Slot)
    requires n <= |lines|
  {
    var (d, c, net) := ReadRow(balances, slot);
    var dr, cr := SumUpTo(ParsedLegs(lines), n, slot, true), SumUpTo(ParsedLegs(lines), n, slot, false);
    ReadRow(after, slot) == (d + dr, c + cr, net + dr - cr)
  }

  /** Which outcome a call has on any tables, and what it leaves: everything of the entry or nothing. */
  ghost predicate Outcomes(entries: map<EntryId, Entry>, t: Tables, envelope: Envelope, r: Outcome, t': Tables)
  {
    && (r == Skipped <==> !Asked(entries, envelope))
    && (r == Already <==> Asked(entries, envelope) && envelope.aggregate.value in t.projected)
    && (r == Projects <==>
         && Asked(entries, envelope) && envelope.aggregate.value !in t.projected
         && TotalsFit(entries[envelope.aggregate.value].lines)
         && AllFit(t.balances, entries[envelope.aggregate.value].lines))
    && (r == Throws <==>
         && Asked(entries, envelope) && envelope.aggregate.value !in t.projected
         && !(TotalsFit(entries[envelope.aggregate.value].lines)
              && AllFit(t.balances, entries[envelope.aggregate.value].lines)))
    && (r != Projects ==> t' == t)
    && (r == Projects ==>
         var e, entry := envelope.aggregate.value, entries[envelope.aggregate.value];
         && t'.projected == t.projected[e := Projected(entry.tenant, |entry.lines|,
              FloatTotal(entry.lines, |entry.lines|, Debit), FloatTotal(entry.lines, |entry.lines|, Credit))]
         && Raised(t.balances, entry.lines, |entry.lines|, t'.balances))
  }

  class Projector {
    var entries: map<EntryId, Entry>
    var projected: map<EntryId, Projected>
    var balances: map<Slot, Balance>

    constructor (entries: map<EntryId, Entry>)
      ensures this.entries == entries && Rows() == Tables(map[], map[])
    {
      this.entries := entries;
      projected, balances := map[], map[];
    }

    function Rows(): Tables
      reads this
    {
      Tables(projected, balances)
    }

    /** The two running totals, every addition rounded to a double. */
    method RunningTotals(lines: seq<Line>) returns (debit: nat, credit: nat)
      ensures debit == FloatTotal(lines, |lines|, Debit) && credit == FloatTotal(lines, |lines|, Credit)
    {
      debit, credit := 0, 0;
      var i := 0;
      while i < |lines|
        invariant 0 <= i <= |lines|
        invariant debit == FloatTotal(lines, i, Debit) && credit == FloatTotal(lines, i, Credit)
      {
        var amount := Doubles.Round(lines[i].amount);
        if lines[i].direction == Debit {
          debit := Doubles.Round(debit + amount);
        } else {
          credit := Doubles.Round(credit + amount);
        }
        i := i + 1;
      }
    }

    /** The upserts of an open transaction: the balances as it sees them, or None when a statement fails. */
    method UpsertLines(lines: seq<Line>) returns (written: Option<map<Slot, Balance>>)
      ensures written == Upserts(balances, lines, |lines|)
    {
      var rows := balances;
      var i := 0;
      while i < |lines|
        invariant 0 <= i <= |lines|
        invariant Upserts(balances, lines, i) == Some(rows)
      {
        var next := Upserted(Lookup(rows, SlotOf(lines[i])), lines[i]);
        if !FitsBalance(next) {
          StaysThrown(balances, lines, i + 1, |lines|);
          return None;
        }
        rows := rows[SlotOf(lines[i]) := next];
        i := i + 1;
      }
      return Some(rows);
    }

    method Project(envelope: Envelope) returns (r: Outcome)
      modifies this`projected, this`balances
      ensures (r, Rows()) == ProjectCall(entries, old(Rows()), envelope)
      ensures Outcomes(entries, old(Rows()), envelope, r, Rows())
    {
      ProjectExact(entries, Rows(), envelope);
      if envelope.kind != JournalPosted {
        return Skipped;
      }
      if envelope.aggregate.None? {
        return Skipped;
      }
      var e := envelope.aggregate.value;
      if e !in entries {
        return Skipped;
      }
      var entry := entries[e];
      var lines := entry.lines;
      var debit, credit := RunningTotals(lines);
      if e in projected {
        return Already;
      }
      var row := Projected(entry.tenant, |lines|, debit, credit);
      if !FitsProjected(row) {
        return Throws;
      }
      var written := UpsertLines(lines);
      if written.None? {
        return Throws;
      }
      projected := projected[e := row];
      balances := written.value;
      return Projects;
    }
  }

  lemma {:induction false} StaysThrown(balances: map<Slot, Balance>, lines: seq<Line>, n: nat, m: nat)
    requires n <= m <= |lines| && Upserts(balances, lines, n) == None
    ensures Upserts(balances, lines, m) == None
    decreases m
  {
    if n < m {
      StaysThrown(balances, lines, n, m - 1);
    }
  }

  /** Redelivery: after a projection the same envelope is recognised and changes nothing. */
  lemma RedeliveryIsIdempotent(entries: map<EntryId, Entry>, t: Tables, envelope: Envelope)
    ensures var (r, t') := ProjectCall(entries, t, envelope);
            r == Projects ==> ProjectCall(entries, t', envelope) == (Already, t')
  {
  }

  /** The upserts of an entry add to every row exactly what its lines post there, net being debit minus credit. */
  lemma {:induction false} UpsertsAdd(balances: map<Slot, Balance>, lines: seq<Line>, n: nat, slot: Slot)
    requires n <= |lines| && Upserts(balances, lines, n).Some?
    ensures var (d, c, net) := ReadRow(balances, slot);
            var legs := ParsedLegs(lines);
            ReadRow(Upserts(balances, lines, n).value, slot) ==
              (d + SumUpTo(legs, n, slot, true), c + SumUpTo(legs, n, slot, false),
               net + SumUpTo(legs, n, slot, true) - SumUpTo(legs, n, slot, false))
  {
    if n > 0 {
      UpsertsAdd(balances, lines, n - 1, slot);
      assert Upserts(balances, lines, n - 1).Some?;
    }
  }

  lemma {:induction false} UpsertsFit(balances: map<Slot, Balance>, lines: seq<Line>, n: nat)
    requires n <= |lines|
    ensures Upserts(balances, lines, n).Some? <==> forall m :: 1 <= m <= n ==> FitsUpTo(balances, lines, m)
  {
    if n > 0 {
      UpsertsFit(balances, lines, n - 1);
      if Upserts(balances, lines, n - 1).Some? {
        UpsertsAdd(balances, lines, n - 1, SlotOf(lines[n - 1]));
        NextFits(balances, lines, n);
      }
    }
  }

  /** The row that the next upsert writes fits exactly when its running sums do. */
  lemma NextFits(balances: map<Slot, Balance>, lines: seq<Line>, n: nat)
    requires 1 <= n <= |lines| && Upserts(balances, lines, n - 1).Some?
    requires RaisedRow(balances, lines, n - 1, Upserts(balances, lines, n - 1).value, SlotOf(lines[n - 1]))
    ensures Upserts(balances, lines, n).Some? <==> FitsUpTo(balances, lines, n)
  {
    var slot := SlotOf(lines[n - 1]);
    var b := Upserts(balances, lines, n - 1).value;
    var row := Upserted(Lookup(b, slot), lines[n - 1]);
    assert (row.debit, row.credit, row.net) == ReadRow(b[slot := row], slot);
  }

  lemma {:induction false} UpsertsRows(balances: map<Slot, Balance>, lines: seq<Line>, n: nat)
    requires n <= |lines| && Upserts(balances, lines, n).Some?
    ensures Raised(balances, lines, n, Upserts(balances, lines, n).value)
  {
    forall slot
      ensures RaisedRow(balances, lines, n, Upserts(balances, lines, n).value, slot)
    {
      UpsertsAdd(balances, lines, n, slot);
    }
    UpsertsKeys(balances, lines, n);
  }

  lemma {:induction false} UpsertsKeys(balances: map<Slot, Balance>, lines: seq<Line>, n: nat)
    requires n <= |lines| && Upserts(balances, lines, n).Some?
    ensures var after := Upserts(balances, lines, n).value;
            && (forall slot :: slot in after <==> slot in balances || Touches(lines, n, slot))
            && (forall slot :: slot in balances ==> slot in after && after[slot].currency == balances[slot].currency)
            && (forall i :: 0 <= i < n && FirstOn(lines, i) && Slot(lines[i].tenant, lines[i].account) !in balances ==>
                 && Slot(lines[i].tenant, lines[i].account) in after
                 && after[Slot(lines[i].tenant, lines[i].account)].currency == lines[i].currency)
  {
    if n > 0 {
      UpsertsKeys(balances, lines, n - 1);
      var slot := Slot(lines[n - 1].tenant, lines[n - 1].account);
      var before, after := Upserts(balances, lines, n - 1).value, Upserts(balances, lines, n).value;
      assert after.Keys == before.Keys + {slot};
      forall x
        ensures Touches(lines, n, x) <==> Touches(lines, n - 1, x) || x == slot
      {
        TouchesNext(lines, n, x);
      }
    }
  }

  lemma TouchesNext(lines: seq<Line>, n: nat, slot: Slot)
    requires 1 <= n <= |lines|
    ensures Touches(lines, n, slot) <==>
              Touches(lines, n - 1, slot) || slot == Slot(lines[n - 1].tenant, lines[n - 1].account)
  {
    if slot == Slot(lines[n - 1].tenant, lines[n - 1].account) {
      assert lines[n - 1].tenant == slot.tenant && lines[n - 1].account == slot.account;
    }
  }

  /**
   * One call on any tables: it projects exactly when it is asked for a stored entry that is not projected
   * and every total and running figure fits, and leaves exactly that entry added.
   */
  lemma ProjectExact(entries: map<EntryId, Entry>, t: Tables, envelope: Envelope)
    ensures var (r, t') := ProjectCall(entries, t, envelope);
            Outcomes(entries, t, envelope, r, t')
  {
    if Asked(entries, envelope) {
      var lines := entries[envelope.aggregate.value].lines;
      UpsertsFit(t.balances, lines, |lines|);
      if Upserts(t.balances, lines, |lines|).Some? {
        UpsertsRows(t.balances, lines, |lines|);
      }
    }
  }

  /* ----- Totals of a ledger_projection row ----- */

  /** Under 2^53 the double totals of a side are its exact integer total. */
  lemma {:induction false} FloatTotalExact(lines: seq<Line>, n: nat, direction: Direction)
    requires n <= |lines| && SideUpTo(StoredLegs(lines), n, direction == Debit) <= Doubles.TWO_53
    ensures FloatTotal(lines, n, direction) == SideUpTo(StoredLegs(lines), n, direction == Debit)
  {
    if n > 0 {
      var legs := StoredLegs(lines);
      forall i | 0 <= i < |legs|
        ensures legs[i].amount >= 0
      {
      }
      SideMonotone(legs, n - 1, n, direction == Debit);
      FloatTotalExact(lines, n - 1, direction);
      if lines[n - 1].direction == direction {
        Doubles.SmallIsExact(lines[n - 1].amount);
        Doubles.SmallIsExact(SideUpTo(legs, n, direction == Debit));
      }
    }
  }

  /** One more line: its amount becomes a double, and so does the sum; the other side stays. */
  lemma FloatTotalNext(before: seq<Line>, line: Line, direction: Direction)
    ensures var own := before + [line];
            FloatTotal(own, |own|, direction) ==
              if line.direction == direction
              then Doubles.Round(FloatTotal(before, |before|, direction) + Doubles.Round(line.amount))
              else FloatTotal(before, |before|, direction)
  {
    FloatTotalPrefix(before + [line], before, |before|, direction);
  }

  lemma {:induction false} FloatTotalPrefix(xs: seq<Line>, ys: seq<Line>, n: nat, direction: Direction)
    requires n <= |xs| && n <= |ys| && forall i :: 0 <= i < n ==> xs[i] == ys[i]
    ensures FloatTotal(xs, n, direction) == FloatTotal(ys, n, direction)
  {
    if n > 0 {
      FloatTotalPrefix(xs, ys, n - 1, direction);
    }
  }

  /**
   * In every reachable state a ledger_projection row counts its entry's lines and, up to 2^53, shows its two equal
   * totals.
   */
  lemma ProjectedRowExact(cfg: Config, states: seq<State>, steps: seq<Step>, i: nat, e: EntryId)
    requires Run(cfg, states, steps) && i < |states| && e in states[i].projected
    ensures e in states[i].entries
    ensures var entry, row := states[i].entries[e], states[i].projected[e];
            && row.tenant == entry.tenant && row.linesCount == |entry.lines|
            && (Side(StoredLegs(entry.lines), true) <= Doubles.TWO_53 ==>
                row.debit == row.credit == Side(StoredLegs(entry.lines), true))
  {
    RunInv(cfg, states, steps, i);
    assert ProjectedOk(states[i], e) && Anchored(cfg, states[i], e);
    var lines := states[i].entries[e].lines;
    if Side(StoredLegs(lines), true) <= Doubles.TWO_53 {
      FloatTotalExact(lines, |lines|, Debit);
      FloatTotalExact(lines, |lines|, Credit);
    }
  }

  /**
   * The bound is tight, and the rounding is per addition: 2^53 and twice 1 total to 2^53, although the true sum
   * 2^53 + 2 is a double.
   */
  lemma FloatTotalLoses(tenant: TenantId, a: AccountId, currency: string, direction: Direction)
    ensures var one := Line(tenant, a, direction, 1, currency);
            var lines := [Line(tenant, a, direction, 9007199254740992, currency), one, one];
            && Side(StoredLegs(lines), direction == Debit) == 9007199254740994
            && FloatTotal(lines, 3, direction) == 9007199254740992
  {
    var one := Line(tenant, a, direction, 1, currency);
    var lines := [Line(tenant, a, direction, Doubles.TWO_53, currency), one, one];
    Doubles.SmallIsExact(Doubles.TWO_53);
    Doubles.SmallIsExact(0);
    Doubles.SmallIsExact(1);
    Doubles.FirstInexact();
    assert FloatTotal(lines, 0, direction) == 0;
    assert FloatTotal(lines, 1, direction) == Doubles.TWO_53;
    assert FloatTotal(lines, 2, direction) == Doubles.TWO_53;
    SideOfThree(StoredLegs(lines), direction == Debit);
  }

  /* ----- One call is one uninterrupted run of the machine ----- */

  /** No other process has an uncommitted projection. */
  predicate Uncontended(s: State, w: WorkerId)
  {
    forall v :: v in s.workers && v != w ==> !HoldsProjection(s.workers[v])
  }

  ghost predicate Projectable(s: State, w: WorkerId)
  {
    && w in s.workers && Busy(s.workers[w])
    && TargetOf(s.events, Head(s.workers[w])).Some? && TargetOf(s.events, Head(s.workers[w])).value in s.entries
  }

  function Target(s: State, w: WorkerId): EntryId
    requires w in s.workers && Busy(s.workers[w]) && TargetOf(s.events, Head(s.workers[w])).Some?
  {
    TargetOf(s.events, Head(s.workers[w])).value
  }

  function EnvelopeOf(s: State, w: WorkerId): Envelope
    requires w in s.workers && Busy(s.workers[w]) && Head(s.workers[w]) in s.events
  {
    var event := s.events[Head(s.workers[w])];
    Envelope(event.tenant, event.kind, event.aggregate)
  }

  /** Committed balances overlaid with the transaction's own writes are the sequential upserts. */
  predicate Overlaid(s: State, stage: Stage)
    requires stage.Upserting? && stage.done <= |stage.lines|
  {
    Upserts(s.balances, stage.lines, stage.done) == Some(s.balances + stage.writes)
  }

  lemma {:induction false} WorkPlays(cfg: Config, s: State, steps: seq<Step>, s': State, w: WorkerId, job: WorkerAction)
    returns (steps': seq<Step>, s'': State)
    requires Plays(cfg, s, steps, s') && Calm(Work(w, job)) && WorkEnabled(cfg, s', w, job)
    ensures s'' == WorkApply(cfg, s', w, job) && Plays(cfg, s, steps', s'')
  {
    PlaysAppend(cfg, s, steps, s', Work(w, job));
    steps', s'' := steps + [Work(w, job)], Apply(cfg, s', Work(w, job));
  }

  /** The stage after one more upsert. */
  function NextStage(s: State, st: Stage): Stage
    requires st.Upserting? && st.done < |st.lines|
  {
    Upserting(st.lines, st.done + 1, st.writes[SlotOf(st.lines[st.done]) := NextWrite(s, st)])
  }

  lemma OverlaidNext(s: State, st: Stage)
    requires st.Upserting? && st.done < |st.lines| && Overlaid(s, st)
    requires Upserts(s.balances, st.lines, st.done + 1).Some?
    ensures FitsBalance(NextWrite(s, st)) && Overlaid(s, NextStage(s, st))
  {
    var slot := SlotOf(st.lines[st.done]);
    assert Lookup(s.balances + st.writes, slot) == Lookup(if slot in st.writes then st.writes else s.balances, slot);
    var row := NextWrite(s, st);
    assert (s.balances + st.writes)[slot := row] == s.balances + st.writes[slot := row];
  }

  /** `s` with the process `w` at another stage of its row. */
  function Staged(s: State, w: WorkerId, stage: Stage): State
    requires w in s.workers && s.workers[w].phase.Dispatching?
  {
    s.(workers := s.workers[w := At(s.workers[w], stage)])
  }

  lemma UpsertEnabled(cfg: Config, s: State, w: WorkerId, st: Stage)
    requires Uncontended(s, w) && w in s.workers && HoldsProjection(s.workers[w])
    requires st.Upserting? && st.done < |st.lines| && Overlaid(s, st)
    requires Upserts(s.balances, st.lines, st.done + 1).Some?
    ensures WorkEnabled(cfg, Staged(s, w, st), w, WorkerAction.Upsert)
    ensures WorkApply(cfg, Staged(s, w, st), w, WorkerAction.Upsert) == Staged(s, w, NextStage(s, st))
    ensures Overlaid(s, NextStage(s, st))
  {
    OverlaidNext(s, st);
    var s' := Staged(s, w, st);
    assert NextWrite(s', st) == NextWrite(s, st);
    assert !SlotLocked(s', w, SlotOf(st.lines[st.done]));
    assert s.workers[w := At(s.workers[w], st)][w := At(s.workers[w], NextStage(s, st))]
        == s.workers[w := At(s.workers[w], NextStage(s, st))];
  }

  lemma {:induction false} UpsertsPlay(cfg: Config, s: State, w: WorkerId, n: nat)
    returns (steps: seq<Step>, s': State, stage: Stage)
    requires Uncontended(s, w) && w in s.workers && HoldsProjection(s.workers[w])
    requires s.workers[w].phase.stage == Upserting(s.workers[w].phase.stage.lines, 0, map[])
    requires n <= |s.workers[w].phase.stage.lines|
    requires Upserts(s.balances, s.workers[w].phase.stage.lines, n).Some?
    ensures Plays(cfg, s, steps, s') && s' == Staged(s, w, stage)
    ensures stage.Upserting? && stage.done == n && stage.lines == s.workers[w].phase.stage.lines && Overlaid(s, stage)
  {
    if n == 0 {
      PlaysNone(cfg, s);
      steps, s', stage := [], s, s.workers[w].phase.stage;
      assert s.balances + map[] == s.balances;
      assert s.workers[w := s.workers[w]] == s.workers;
    } else {
      steps, s', stage := UpsertsPlay(cfg, s, w, n - 1);
      UpsertEnabled(cfg, s, w, stage);
      steps, s' := WorkPlays(cfg, s, steps, s', w, WorkerAction.Upsert);
      stage := NextStage(s, stage);
    }
  }

  /** Reading the journal, the guard and the insert. */
  lemma {:induction false} InsertPlays(cfg: Config, s: State, w: WorkerId) returns (steps: seq<Step>, s': State)
    requires Projectable(s, w) && Uncontended(s, w) && s.workers[w].phase.stage == Delivered
    requires Target(s, w) !in s.projected
    requires FitsProjected(ProjectedRow(s.entries[Target(s, w)].tenant, s.entries[Target(s, w)].lines))
    ensures Plays(cfg, s, steps, s')
    ensures s' == Staged(s, w, Upserting(s.entries[Target(s, w)].lines, 0, map[]))
  {
    LoadEffect(cfg, s, w);
    PlaysNone(cfg, s);
    steps, s' := WorkPlays(cfg, s, [], s, w, Load);
    GuardEffect(cfg, s, w);
    steps, s' := WorkPlays(cfg, s, steps, s', w, Guard);
    InsertEffect(cfg, s, w);
    steps, s' := WorkPlays(cfg, s, steps, s', w, WorkerAction.Insert);
  }

  lemma LoadEffect(cfg: Config, s: State, w: WorkerId)
    requires Projectable(s, w) && s.workers[w].phase.stage == Delivered
    ensures WorkEnabled(cfg, s, w, Load)
    ensures WorkApply(cfg, s, w, Load) == Staged(s, w, Loaded(s.entries[Target(s, w)].lines))
  {
  }

  lemma GuardEffect(cfg: Config, s: State, w: WorkerId)
    requires Projectable(s, w) && Target(s, w) !in s.projected
    ensures var lines := s.entries[Target(s, w)].lines;
            && WorkEnabled(cfg, Staged(s, w, Loaded(lines)), w, Guard)
            && WorkApply(cfg, Staged(s, w, Loaded(lines)), w, Guard) == Staged(s, w, Guarded(lines))
  {
    StagedTwice(s, w, Loaded(s.entries[Target(s, w)].lines), Guarded(s.entries[Target(s, w)].lines));
  }

  lemma InsertEffect(cfg: Config, s: State, w: WorkerId)
    requires Projectable(s, w) && Uncontended(s, w) && Target(s, w) !in s.projected
    requires FitsProjected(ProjectedRow(s.entries[Target(s, w)].tenant, s.entries[Target(s, w)].lines))
    ensures var lines := s.entries[Target(s, w)].lines;
            && WorkEnabled(cfg, Staged(s, w, Guarded(lines)), w, WorkerAction.Insert)
            && WorkApply(cfg, Staged(s, w, Guarded(lines)), w, WorkerAction.Insert)
                == Staged(s, w, Upserting(lines, 0, map[]))
  {
    var lines := s.entries[Target(s, w)].lines;
    StagedTwice(s, w, Guarded(lines), Upserting(lines, 0, map[]));
    assert !EntryLocked(Staged(s, w, Guarded(lines)), w, Target(s, w));
  }

  lemma StagedTwice(s: State, w: WorkerId, a: Stage, b: Stage)
    requires w in s.workers && s.workers[w].phase.Dispatching?
    ensures Staged(Staged(s, w, a), w, b) == Staged(s, w, b)
  {
    assert s.workers[w := At(s.workers[w], a)][w := At(s.workers[w], b)] == s.workers[w := At(s.workers[w], b)];
  }

  /** The process after a call with this outcome: a thrown error is a failure, everything else a success. */
  function Answered(wk: Worker, r: Outcome): Worker
    requires Busy(wk)
  {
    if r == Throws then At(wk, Failing) else NextRow(wk, true)
  }

  /** The commit of a finished projection. */
  lemma CommitLands(cfg: Config, s: State, w: WorkerId)
    requires Projectable(s, w) && HoldsProjection(s.workers[w])
    requires var st := s.workers[w].phase.stage;
             st.lines == s.entries[Target(s, w)].lines && st.done == |st.lines| && Overlaid(s, st)
    ensures WorkEnabled(cfg, s, w, CommitProjection(true))
    ensures WorkApply(cfg, s, w, CommitProjection(true))
         == s.(workers := s.workers[w := NextRow(s.workers[w], true)],
               projected := s.projected[Target(s, w) := ProjectedRow(s.entries[Target(s, w)].tenant,
                   s.entries[Target(s, w)].lines)],
               balances := Upserts(s.balances, s.entries[Target(s, w)].lines, |s.entries[Target(s, w)].lines|).value)
  {
  }

  lemma {:induction false} CommitPlays(cfg: Config, s: State, w: WorkerId) returns (steps: seq<Step>, s': State)
    requires Projectable(s, w) && Uncontended(s, w) && s.workers[w].phase.stage == Delivered
    requires ProjectCall(s.entries, Tables(s.projected, s.balances), EnvelopeOf(s, w)).0 == Projects
    ensures Plays(cfg, s, steps, s')
    ensures var t := ProjectCall(s.entries, Tables(s.projected, s.balances), EnvelopeOf(s, w)).1;
            s' == s.(workers := s.workers[w := NextRow(s.workers[w], true)], projected := t.projected,
                balances := t.balances)
  {
    steps, s' := InsertPlays(cfg, s, w);
    var more, s2, stage := UpsertsPlay(cfg, s', w, |s'.workers[w].phase.stage.lines|);
    PlaysConcat(cfg, s, steps, s', more, s2);
    CommitLands(cfg, s2, w);
    steps, s' := WorkPlays(cfg, s, steps + more, s2, w, CommitProjection(true));
  }

  /** The entry is projected already: the guard finds it. */
  lemma {:induction false} AlreadyPlays(cfg: Config, s: State, w: WorkerId) returns (steps: seq<Step>, s': State)
    requires Projectable(s, w) && s.workers[w].phase.stage == Delivered && Target(s, w) in s.projected
    ensures Plays(cfg, s, steps, s') && s' == s.(workers := s.workers[w := NextRow(s.workers[w], true)])
  {
    LoadEffect(cfg, s, w);
    PlaysNone(cfg, s);
    steps, s' := WorkPlays(cfg, s, [], s, w, Load);
    GuardFinds(cfg, s, w, Loaded(s.entries[Target(s, w)].lines));
    steps, s' := WorkPlays(cfg, s, steps, s', w, Guard);
  }

  lemma GuardFinds(cfg: Config, s: State, w: WorkerId, stage: Stage)
    requires Projectable(s, w) && Target(s, w) in s.projected && stage.Loaded?
    ensures WorkEnabled(cfg, Staged(s, w, stage), w, Guard)
    ensures WorkApply(cfg, Staged(s, w, stage), w, Guard) == s.(workers := s.workers[w := NextRow(s.workers[w], true)])
  {
    assert s.workers[w := At(s.workers[w], stage)][w := NextRow(s.workers[w], true)]
        == s.workers[w := NextRow(s.workers[w], true)];
  }

  /** A call without interference is a run of the pipeline with the same outcome and the same tables. */
  lemma {:induction false} ProjectIsARun(cfg: Config, s: State, w: WorkerId) returns (steps: seq<Step>, s': State)
    requires w in s.workers && Busy(s.workers[w]) && Head(s.workers[w]) in s.events && Uncontended(s, w)
    requires s.workers[w].phase.stage == Delivered
    ensures Plays(cfg, s, steps, s')
    ensures var (r, t) := ProjectCall(s.entries, Tables(s.projected, s.balances), EnvelopeOf(s, w));
            s' == s.(workers := s.workers[w := Answered(s.workers[w], r)], projected := t.projected,
                balances := t.balances)
  {
    match ProjectCall(s.entries, Tables(s.projected, s.balances), EnvelopeOf(s, w)).0
    case Projects =>
      steps, s' := CommitPlays(cfg, s, w);
    case Throws =>
      PlaysNone(cfg, s);
      steps, s' := WorkPlays(cfg, s, [], s, w, ProjectionError);
    case Skipped =>
      PlaysNone(cfg, s);
      steps, s' := WorkPlays(cfg, s, [], s, w, Load);
    case Already =>
      steps, s' := AlreadyPlays(cfg, s, w);
  }
}
