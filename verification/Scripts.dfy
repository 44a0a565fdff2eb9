/** Runs given by their steps alone: how the services' calls are found among the runs of the pipeline. */
module Scripts {
  import opened Schema
  import opened Pipeline

  /** No process crashes, and no statement fails while it records a failure or marks a batch. */
  predicate Calm(step: Step)
  {
    step.Work? ==>
      && !step.job.Crash? && !step.job.BatchError?
      && (step.job.HandleFailure? ==> step.job.acked) && (step.job.Finish? ==> step.job.acked)
  }

  ghost predicate Moves(cfg: Config, states: seq<State>, steps: seq<Step>, i: nat)
    requires i < |steps| && |states| == |steps| + 1
  {
    Calm(steps[i]) && Next(cfg, states[i], steps[i], states[i + 1])
  }

  /** `states` are the states before, between and after calm steps. */
  ghost predicate Chain(cfg: Config, states: seq<State>, steps: seq<Step>)
  {
    |states| == |steps| + 1 && forall i :: 0 <= i < |steps| ==> Moves(cfg, states, steps, i)
  }

  /** A sequence of calm steps of the pipeline leads from `s` to `s'`. */
  ghost predicate Plays(cfg: Config, s: State, steps: seq<Step>, s': State)
  {
    exists states: seq<State> :: Chain(cfg, states, steps) && states[0] == s && states[|steps|] == s'
  }

  lemma PlaysNone(cfg: Config, s: State)
    ensures Plays(cfg, s, [], s)
  {
    assert Chain(cfg, [s], []);
  }

  lemma {:induction false} ChainConcat(cfg: Config, xs: seq<State>, a: seq<Step>, ys: seq<State>, b: seq<Step>)
    requires Chain(cfg, xs, a) && Chain(cfg, ys, b) && xs[|a|] == ys[0]
    ensures Chain(cfg, xs + ys[1..], a + b)
  {
    var zs := xs + ys[1..];
    forall i | 0 <= i < |a + b|
      ensures Moves(cfg, zs, a + b, i)
    {
      if i < |a| {
        assert Moves(cfg, xs, a, i);
        assert zs[i] == xs[i] && zs[i + 1] == xs[i + 1] && (a + b)[i] == a[i];
      } else {
        assert Moves(cfg, ys, b, i - |a|);
        assert zs[i] == ys[i - |a|] && zs[i + 1] == ys[i - |a| + 1] && (a + b)[i] == b[i - |a|];
      }
    }
  }

  lemma PlaysConcat(cfg: Config, s: State, a: seq<Step>, s': State, b: seq<Step>, s'': State)
    requires Plays(cfg, s, a, s') && Plays(cfg, s', b, s'')
    ensures Plays(cfg, s, a + b, s'')
  {
    var xs :| Chain(cfg, xs, a) && xs[0] == s && xs[|a|] == s';
    var ys :| Chain(cfg, ys, b) && ys[0] == s' && ys[|b|] == s'';
    ChainConcat(cfg, xs, a, ys, b);
    var zs := xs + ys[1..];
    assert zs[0] == s && zs[|a + b|] == s'';
  }

  lemma PlaysStep(cfg: Config, s: State, step: Step)
    requires Calm(step) && Enabled(cfg, s, step)
    ensures Plays(cfg, s, [step], Apply(cfg, s, step))
  {
    var states := [s, Apply(cfg, s, step)];
    assert Moves(cfg, states, [step], 0);
    assert Chain(cfg, states, [step]);
  }

  lemma PlaysAppend(cfg: Config, s: State, steps: seq<Step>, s': State, step: Step)
    requires Plays(cfg, s, steps, s') && Calm(step) && Enabled(cfg, s', step)
    ensures Plays(cfg, s, steps + [step], Apply(cfg, s', step))
  {
    PlaysStep(cfg, s', step);
    PlaysConcat(cfg, s, steps, s', [step], Apply(cfg, s', step));
  }

  /** What can be played from an initial state is a run. */
  lemma {:induction false} PlaysIsARun(cfg: Config, first: State, steps: seq<Step>, last: State)
    returns (states: seq<State>)
    requires ConfigOk(cfg) && Init(first) && Plays(cfg, first, steps, last)
    ensures Run(cfg, states, steps) && states[0] == first && states[|steps|] == last
    ensures forall i :: 0 <= i < |steps| ==> Calm(steps[i])
  {
    states :| Chain(cfg, states, steps) && states[0] == first && states[|steps|] == last;
    forall i | 0 <= i < |steps|
      ensures Calm(steps[i]) && Next(cfg, states[i], steps[i], states[i + 1])
    {
      assert Moves(cfg, states, steps, i);
    }
  }
}
