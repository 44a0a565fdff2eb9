/**
 * Exactly-once effect: whatever is redelivered, raced, aborted or lost, the pipeline behaves like an
 * abstract ledger that knows only two actions, posting an entry and projecting it.
 */
module ExactlyOnce {
  import opened Wrappers
  import opened Sums
  import opened Schema
  import opened Pipeline
  import opened PipelineInvariants
  import opened PipelineTheorems
  import BalanceProof
  import PostingProof

  /* ----- The abstract ledger ----- */

  datatype Abstract = Abstract(journal: map<EntryId, Entry>, projected: set<EntryId>)

  ghost predicate AbstractPost(cfg: Config, a: Abstract, a': Abstract, e: EntryId, entry: Entry)
  {
    e !in a.journal && EntryOk(cfg.chart, entry) && a' == a.(journal := a.journal[e := entry])
  }

  ghost predicate AbstractProject(a: Abstract, a': Abstract, e: EntryId)
  {
    e in a.journal && e !in a.projected && a' == a.(projected := a.projected + {e})
  }

  /** The balances of the abstract ledger are not state: they are the fold over what is projected. */
  ghost function AbstractSide(a: Abstract, slot: Slot, debit: bool): int
  {
    SumOver(a.journal, a.projected, slot, debit)
  }

  /* ----- The mapping ----- */

  ghost function Abs(s: State): Abstract
  {
    Abstract(s.entries, s.projected.Keys)
  }

  /** The row that a reader of account_balances sees; a missing row reads as zeros. */
  function ReadRow(balances: map<Slot, Balance>, slot: Slot): (int, int, int)
  {
    if slot in balances then (balances[slot].debit, balances[slot].credit, balances[slot].net) else (0, 0, 0)
  }

  ghost predicate ShowsSlot(s: State, slot: Slot)
  {
    ReadRow(s.balances, slot) ==
      (AbstractSide(Abs(s), slot, true), AbstractSide(Abs(s), slot, false),
       AbstractSide(Abs(s), slot, true) - AbstractSide(Abs(s), slot, false))
  }

  ghost predicate ShowsAbstract(s: State)
  {
    forall slot :: ShowsSlot(s, slot)
  }

  /** The abstract action a step performs: a passing commit posts, a projection commit projects, the rest stutters. */
  ghost predicate Simulates(cfg: Config, s: State, step: Step, s': State)
  {
    if step.Post? && Commits(s, step.p, step.act) then
      AbstractPost(cfg, Abs(s), Abs(s'), s.posts[step.p].entry,
          Entry(s.posts[step.p].dto.tenant, s.posts[step.p].lines))
    else if step.Work? && step.job.CommitProjection? then
      && step.w in s.workers && Busy(s.workers[step.w])
      && var target := TargetOf(s.events, Head(s.workers[step.w]));
         target.Some? && AbstractProject(Abs(s), Abs(s'), target.value)
    else Abs(s') == Abs(s)
  }

  lemma StepRefines(cfg: Config, s: State, step: Step, s': State)
    requires ConfigOk(cfg) && Inv(cfg, s) && Next(cfg, s, step, s')
    ensures Simulates(cfg, s, step, s')
  {
    match step
    case Post(p, act) => PostRefines(cfg, s, p, act);
    case Work(w, job) => WorkRefines(cfg, s, w, job);
    case OtherEvent(_, _, _, _) =>
    case Tick(_) =>
  }

  lemma PostRefines(cfg: Config, s: State, p: PostId, act: PostAction)
    requires ConfigOk(cfg) && PostEnabled(cfg, s, p, act) && (p in s.posts ==> TxOk(cfg, s, s.posts[p]))
    ensures Simulates(cfg, s, Step.Post(p, act), PostApply(cfg, s, p, act))
  {
    if Commits(s, p, act) {
      PostingProof.BuiltLinesOk(cfg, s.posts[p].dto, s.posts[p].lines);
    }
  }

  lemma WorkRefines(cfg: Config, s: State, w: WorkerId, job: WorkerAction)
    requires WorkEnabled(cfg, s, w, job) && InFlightOk(s, s.workers[w])
    ensures Simulates(cfg, s, Work(w, job), WorkApply(cfg, s, w, job))
  {
  }

  lemma SlotShows(s: State, slot: Slot)
    requires RowsOk(s)
    ensures ShowsSlot(s, slot)
  {
    if slot in s.balances {
      assert RowOk(s, slot);
    } else {
      BalanceProof.NoRowNoSum(s, slot, true);
      BalanceProof.NoRowNoSum(s, slot, false);
    }
  }

  /** Committed balances always show the abstract ledger. */
  lemma InvShowsAbstract(cfg: Config, s: State)
    requires Inv(cfg, s)
    ensures ShowsAbstract(s)
  {
    forall slot
      ensures ShowsSlot(s, slot)
    {
      SlotShows(s, slot);
    }
  }

  /** Refinement of whole runs: every run of the pipeline is a run of the abstract ledger, and shows its balances. */
  lemma RunRefines(cfg: Config, states: seq<State>, steps: seq<Step>)
    requires Run(cfg, states, steps)
    ensures Abs(states[0]) == Abstract(map[], {})
    ensures forall i :: 0 <= i < |steps| ==> Simulates(cfg, states[i], steps[i], states[i + 1])
    ensures forall i :: 0 <= i < |states| ==> ShowsAbstract(states[i])
  {
    forall i | 0 <= i < |steps|
      ensures Simulates(cfg, states[i], steps[i], states[i + 1])
    {
      RunInv(cfg, states, steps, i);
      assert Next(cfg, states[i], steps[i], states[i + 1]);
      StepRefines(cfg, states[i], steps[i], states[i + 1]);
    }
    forall i | 0 <= i < |states|
      ensures ShowsAbstract(states[i])
    {
      RunInv(cfg, states, steps, i);
      InvShowsAbstract(cfg, states[i]);
    }
  }

  /**
   * A row of account_balances exists exactly for the slots a projected line posts to, in the currency of one such
   * line.
   */
  lemma RowsAreTouchedSlots(cfg: Config, states: seq<State>, steps: seq<Step>, i: nat, slot: Slot)
    requires Run(cfg, states, steps) && i < |states|
    ensures slot in states[i].balances <==> exists e, currency :: PostsCurrency(states[i], e, slot, currency)
    ensures slot in states[i].balances ==>
        exists e :: PostsCurrency(states[i], e, slot, states[i].balances[slot].currency)
  {
    var s := states[i];
    RunInv(cfg, states, steps, i);
    if slot in s.balances {
      assert RowOk(s, slot);
    }
    if e, currency :| PostsCurrency(s, e, slot, currency) {
      assert RowsPresent(s, e);
    }
  }

  ghost predicate ProjectsEntry(s: State, step: Step, e: EntryId)
  {
    && step.Work? && step.job.CommitProjection? && step.w in s.workers && Busy(s.workers[step.w])
    && TargetOf(s.events, Head(s.workers[step.w])) == Some(e)
  }

  /** No entry is projected by two commits of a run, whichever processes deliver it however often. */
  lemma ProjectedOnce(cfg: Config, states: seq<State>, steps: seq<Step>, i: nat, j: nat, e: EntryId, f: EntryId)
    requires Run(cfg, states, steps) && i < j < |steps|
    requires ProjectsEntry(states[i], steps[i], e) && ProjectsEntry(states[j], steps[j], f)
    ensures e != f
  {
    RunRefines(cfg, states, steps);
    assert Simulates(cfg, states[i], steps[i], states[i + 1]);
    assert e in Abs(states[i + 1]).projected;
    RunExtends(cfg, states, steps, i + 1, j);
    assert e in states[j].projected;
    assert Simulates(cfg, states[j], steps[j], states[j + 1]);
    assert f !in states[j].projected;
  }

  /* ----- Lag and quiescence ----- */

  /**
   * Exactly how far the balances lag: journal fold minus balances is the fold over the unprojected
   * entries, and the event of each of those is still pending or dead-lettered.
   */
  lemma ExactLag(cfg: Config, states: seq<State>, steps: seq<Step>, i: nat, slot: Slot)
    requires Run(cfg, states, steps) && i < |states|
    ensures var s := states[i];
            var lag := s.entries.Keys - s.projected.Keys;
            && SumOver(s.entries, s.entries.Keys, slot, true) - ReadRow(s.balances, slot).0
                == SumOver(s.entries, lag, slot, true)
            && SumOver(s.entries, s.entries.Keys, slot, false) - ReadRow(s.balances, slot).1
                == SumOver(s.entries, lag, slot, false)
            && ReadRow(s.balances, slot).2 == ReadRow(s.balances, slot).0 - ReadRow(s.balances, slot).1
            && forall e :: e in lag ==> exists v ::
                TargetOf(s.events, v) == Some(e) && s.events[v].status in {Pending, DeadLetter}
  {
    var s := states[i];
    var lag := s.entries.Keys - s.projected.Keys;
    RunInv(cfg, states, steps, i);
    InvShowsAbstract(cfg, s);
    assert ShowsSlot(s, slot);
    assert s.projected.Keys + lag == s.entries.Keys;
    SetSumUnion(s.projected.Keys, lag, (e: EntryId) => EntrySum(s.entries, e, slot, true));
    SetSumUnion(s.projected.Keys, lag, (e: EntryId) => EntrySum(s.entries, e, slot, false));
    forall e | e in lag
      ensures exists v :: TargetOf(s.events, v) == Some(e) && s.events[v].status in {Pending, DeadLetter}
    {
      UnprojectedIsOpen(cfg, s, e);
    }
  }

  lemma UnprojectedIsOpen(cfg: Config, s: State, e: EntryId)
    requires Inv(cfg, s) && e in s.entries && e !in s.projected
    ensures exists v :: TargetOf(s.events, v) == Some(e) && s.events[v].status in {Pending, DeadLetter}
  {
    assert Anchored(cfg, s, e);
    var v := s.origin[e].event;
    assert s.events[v].status == Published ==> Settled(s, v);
    assert TargetOf(s.events, v) == Some(e) && s.events[v].status in {Pending, DeadLetter};
  }

  /** Every journal_entry.posted event is published; events of other kinds may be in any status. */
  ghost predicate Quiescent(s: State)
  {
    forall v :: v in s.events && s.events[v].kind == JournalPosted ==> s.events[v].status == Published
  }

  /**
   * With nothing posted left pending or dead-lettered the incremental balances equal the fold over the whole
   * journal.
   */
  lemma QuiescentAgreement(cfg: Config, states: seq<State>, steps: seq<Step>, i: nat, slot: Slot)
    requires Run(cfg, states, steps) && i < |states|
    requires Quiescent(states[i])
    ensures states[i].projected.Keys == states[i].entries.Keys
    ensures ReadRow(states[i].balances, slot).0 == SumOver(states[i].entries, states[i].entries.Keys, slot, true)
    ensures ReadRow(states[i].balances, slot).1 == SumOver(states[i].entries, states[i].entries.Keys, slot, false)
    ensures ReadRow(states[i].balances, slot).2
        == ReadRow(states[i].balances, slot).0 - ReadRow(states[i].balances, slot).1
  {
    var s := states[i];
    RunInv(cfg, states, steps, i);
    InvShowsAbstract(cfg, s);
    assert ShowsSlot(s, slot);
    forall e | e in s.entries
      ensures e in s.projected
    {
      if e !in s.projected { UnprojectedIsOpen(cfg, s, e); }
    }
    assert s.projected.Keys == s.entries.Keys;
  }
}
