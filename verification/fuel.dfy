/** Fuel is a modelling device, not behaviour: a run that reaches a result with some
    fuel reaches the same result with any larger amount. */
module Fuel {
  import opened Wrappers
  import opened States
  import opened Engine
  import opened RunFacts

  /** The loop, once it reaches a result, reaches the same one with more fuel. */
  lemma {:induction false} LoopFuelMonotone(g: Graph, env: Env, cur: Option<State>, ctx: Context, f: nat, f': nat)
    requires f <= f' && Loop(g, env, cur, ctx, f) != OutOfFuel
    ensures Loop(g, env, cur, ctx, f') == Loop(g, env, cur, ctx, f)
    decreases f, 0
  {
    if cur.Some? {
      var s := cur.value;
      LoopStep(g, env, s, ctx, f);
      LoopStep(g, env, s, ctx, f');
      ExecuteFuelMonotone(s, g, env, ctx, f - 1, f' - 1);
      ContinueFuelMonotone(s, Execute(s, g, env, ctx, f - 1), g, env, f - 1, f' - 1);
    }
  }

  lemma {:induction false} ContinueFuelMonotone(s: State, t: Transition, g: Graph, env: Env, f: nat, f': nat)
    requires f <= f' && Continue(s, t, g, env, f) != OutOfFuel
    ensures Continue(s, t, g, env, f') == Continue(s, t, g, env, f)
    decreases f, 1
  {
    if t.Advance? {
      LoopFuelMonotone(g, env, t.next, t.ctx, f, f');
    }
  }

  /** A state's step that does not run out of fuel takes the same transition with more. */
  lemma {:induction false} ExecuteFuelMonotone(s: State, g: Graph, env: Env, ctx: Context, f: nat, f': nat)
    requires f <= f' && Execute(s, g, env, ctx, f) != Exhausted
    ensures Execute(s, g, env, ctx, f') == Execute(s, g, env, ctx, f)
    decreases f, 2
  {
    match s
    case Map(_, input, _, _, branch) =>
      if input in ctx && ctx[input].Arr? {
        var jobs := MapJobs(branch, ctx[input].items);
        BranchesFuelMonotone(jobs, env, f, f');
      }
    case Parallel(_, branches, _) =>
      BranchesFuelMonotone(ParallelJobs(branches), env, f, f');
    case _ =>
  }

  /** Nested runs: when none of them runs out of fuel, more fuel changes none of them.
      Otherwise the join reports exhaustion and the step has no result to preserve. */
  lemma BranchesFuelMonotone(jobs: seq<(Graph, Context)>, env: Env, f: nat, f': nat)
    requires f <= f'
    ensures Join(RunBranches(jobs, env, f)) != JoinExhausted ==>
              RunBranches(jobs, env, f') == RunBranches(jobs, env, f)
    decreases f, 1
  {
    var rs := RunBranches(jobs, env, f);
    if Join(rs) != JoinExhausted {
      forall i | 0 <= i < |jobs|
        ensures Run(jobs[i].0, env, jobs[i].1, f') == Run(jobs[i].0, env, jobs[i].1, f)
      {
        assert rs[i] != OutOfFuel;
        LoopFuelMonotone(jobs[i].0, env, GetState(jobs[i].0, jobs[i].0.startAt), jobs[i].1, f, f');
      }
    }
  }

  /** A run that reaches a result reaches the same result with any larger fuel. */
  lemma RunFuelMonotone(g: Graph, env: Env, init: Context, f: nat, f': nat)
    requires f <= f' && Run(g, env, init, f) != OutOfFuel
    ensures Run(g, env, init, f') == Run(g, env, init, f)
  {
    LoopFuelMonotone(g, env, GetState(g, g.startAt), init, f, f');
  }
}
