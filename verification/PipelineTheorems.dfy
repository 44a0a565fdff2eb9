/** Safety of the pipeline over whole runs. */
module PipelineTheorems {
  import opened Schema
  import opened Pipeline
  import opened PipelineInvariants
  import PostingProof
  import RelayProof
  import BalanceProof

  /* ----- The invariant ----- */

  lemma InitInv(cfg: Config, s: State)
    requires Init(s)
    ensures Inv(cfg, s)
  {
  }

  lemma NewEventsPending(cfg: Config, s: State, p: PostId, act: PostAction)
    requires PostEnabled(cfg, s, p, act) && (p in s.posts ==> TxOk(cfg, s, s.posts[p]))
    ensures var s' := PostApply(cfg, s, p, act);
            && (forall id :: id in s'.events && id !in s.events ==> s'.events[id].status == Pending)
            && (forall id :: id in s.events ==> id in s'.events && s'.events[id] == s.events[id])
  {
  }

  lemma PostKeepsProjection(cfg: Config, s: State, p: PostId, act: PostAction)
    requires PostEnabled(cfg, s, p, act) && (p in s.posts ==> TxOk(cfg, s, s.posts[p]))
    requires s.origin.Keys == s.entries.Keys && RelayInv(s) && BalanceInv(s)
    ensures RelayInv(PostApply(cfg, s, p, act)) && BalanceInv(PostApply(cfg, s, p, act))
  {
    var s' := PostApply(cfg, s, p, act);
    PostExtends(cfg, s, p, act);
    NewEventsPending(cfg, s, p, act);
    RelayProof.RelayFrame(s, s');
    BalanceProof.BalanceFrame(s, s');
  }

  lemma PostStepInv(cfg: Config, s: State, p: PostId, act: PostAction)
    requires ConfigOk(cfg) && Inv(cfg, s) && PostEnabled(cfg, s, p, act)
    ensures Inv(cfg, PostApply(cfg, s, p, act))
  {
    PostingProof.PostKeepsJournal(cfg, s, p, act);
    PostingProof.PostKeepsPosts(cfg, s, p, act);
    PostKeepsProjection(cfg, s, p, act);
  }

  lemma WorkStepInv(cfg: Config, s: State, w: WorkerId, job: WorkerAction)
    requires Inv(cfg, s) && WorkEnabled(cfg, s, w, job)
    ensures Inv(cfg, WorkApply(cfg, s, w, job))
  {
    var s' := WorkApply(cfg, s, w, job);
    WorkFrames(cfg, s, w, job);
    PostingProof.JournalFrame(cfg, s, s');
    PostingProof.PostsFrame(cfg, s, s');
    RelayProof.WorkKeepsRelay(cfg, s, w, job);
    BalanceProof.WorkKeepsBalances(cfg, s, w, job);
  }

  lemma OtherEventJournal(cfg: Config, s: State, step: Step)
    requires JournalInv(cfg, s) && Enabled(cfg, s, step) && step.OtherEvent?
    ensures JournalInv(cfg, Apply(cfg, s, step))
  {
    var s' := Apply(cfg, s, step);
    forall e | e in s'.entries
      ensures Anchored(cfg, s', e)
    {
      assert Anchored(cfg, s, e);
    }
  }

  lemma OtherEventInv(cfg: Config, s: State, step: Step)
    requires Inv(cfg, s) && Enabled(cfg, s, step) && step.OtherEvent?
    ensures Inv(cfg, Apply(cfg, s, step))
  {
    var s' := Apply(cfg, s, step);
    StepExtends(cfg, s, step, s');
    OtherEventJournal(cfg, s, step);
    PostingProof.PostsFrame(cfg, s, s');
    RelayProof.RelayFrame(s, s');
    BalanceProof.BalanceFrame(s, s');
  }

  lemma TickInv(cfg: Config, s: State, step: Step)
    requires Inv(cfg, s) && Enabled(cfg, s, step) && step.Tick?
    ensures Inv(cfg, Apply(cfg, s, step))
  {
    var s' := Apply(cfg, s, step);
    StepExtends(cfg, s, step, s');
    PostingProof.JournalFrame(cfg, s, s');
    PostingProof.PostsFrame(cfg, s, s');
    RelayProof.RelayFrame(s, s');
    BalanceProof.BalanceFrame(s, s');
  }

  lemma StepInv(cfg: Config, s: State, step: Step, s': State)
    requires ConfigOk(cfg) && Inv(cfg, s) && Next(cfg, s, step, s')
    ensures Inv(cfg, s')
  {
    match step
    case Post(p, act) => PostStepInv(cfg, s, p, act);
    case Work(w, job) => WorkStepInv(cfg, s, w, job);
    case OtherEvent(_, _, _, _) => OtherEventInv(cfg, s, step);
    case Tick(_) => TickInv(cfg, s, step);
  }

  /** Every state of every run satisfies the invariant. */
  lemma {:induction false} RunInv(cfg: Config, states: seq<State>, steps: seq<Step>, i: nat)
    requires Run(cfg, states, steps) && i < |states|
    ensures Inv(cfg, states[i])
    decreases i
  {
    if i == 0 {
      InitInv(cfg, states[0]);
    } else {
      RunInv(cfg, states, steps, i - 1);
      assert Next(cfg, states[i - 1], steps[i - 1], states[i]);
      StepInv(cfg, states[i - 1], steps[i - 1], states[i]);
    }
  }

  lemma NextExtends(cfg: Config, states: seq<State>, steps: seq<Step>, i: nat)
    requires Run(cfg, states, steps) && i < |steps|
    ensures Extends(states[i], states[i + 1])
  {
    RunInv(cfg, states, steps, i);
    assert Next(cfg, states[i], steps[i], states[i + 1]);
    StepExtends(cfg, states[i], steps[i], states[i + 1]);
  }

  /** A later state of a run extends every earlier one. */
  lemma {:induction false} RunExtends(cfg: Config, states: seq<State>, steps: seq<Step>, i: nat, j: nat)
    requires Run(cfg, states, steps) && i <= j < |states|
    ensures Extends(states[i], states[j])
    decreases j
  {
    if i < j {
      RunExtends(cfg, states, steps, i, j - 1);
      NextExtends(cfg, states, steps, j - 1);
      ExtendsTransitive(states[i], states[j - 1], states[j]);
    }
  }
}
