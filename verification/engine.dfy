/** The execution engine: one step of each state variant (`Execute`) and the run
    loop (`Run`), which Map and Parallel states re-enter for their branches. Graphs
    may cycle, so every run carries fuel: each executed state costs one unit and a
    nested run receives what its parent has left. Concurrency is not modelled: the
    branches of a fan-out state are run one after the other and then joined. This
    is faithful because the model's values are immutable and its units of work are
    pure functions, so no branch can observe another; the concurrent original can
    share mutable data between branches (see the README). */
module Engine {
  import opened Wrappers
  import opened Seqs
  import opened Strings
  import opened Errors
  import opened States
  import opened Choices
  import opened Tasks

  /** The outcome of executing one state: the next state (None ends the run) and the
      context; or an error and the context; or a nested run that ran out of fuel. */
  datatype Transition =
    | Advance(next: Option<State>, ctx: Context)
    | Halt(err: Error, ctx: Context)
    | Exhausted

  /** The outcome of a run: success with the final context, failure with the error
      and the context as the failing state left it, or fuel exhausted. */
  datatype RunResult =
    | Completed(ctx: Context)
    | Failed(err: Error, ctx: Context)
    | OutOfFuel

  /** The context key under which a Map branch receives its element. */
  const ItemKey: string := "item"

  /** The context key a Parallel state writes its branch outputs to. */
  const ParallelOutputKey: string := "parallel_output"

  /** `fmt.Errorf("state '%s' failed: %w", name, err)` in the run loop. */
  function StateFailed(name: string, e: Error): Error
  {
    Wrapped("state '" + name + "' failed: ", e)
  }

  function MapIterationFailed(i: nat, e: Error): Error
  {
    Wrapped("map iteration " + NatToString(i) + " failed: ", e)
  }

  function ParallelBranchFailed(i: nat, e: Error): Error
  {
    Wrapped("parallel branch " + NatToString(i) + " failed: ", e)
  }

  function NotAnArray(key: string): Error
  {
    Plain("input '" + key + "' is not an array")
  }

  function FailureInState(name: string): Error
  {
    Plain("failure in state " + name)
  }

  /** The state a successful terminal Task hands to the run loop: a fresh End state
      named "End", which is not looked up in the graph. */
  const TaskEndState: State := End("End")

  /** `StateMachine.Run`: start from the state registered under `startAt` with the
      given initial data and loop until no next state remains or a state fails. */
  function Run(g: Graph, env: Env, init: Context, fuel: nat): RunResult
    decreases fuel, 1, 0
  {
    Loop(g, env, GetState(g, g.startAt), init, fuel)
  }

  /** The body of Run's loop from the current state `cur` on. */
  function Loop(g: Graph, env: Env, cur: Option<State>, ctx: Context, fuel: nat): RunResult
    decreases fuel, 0, 0
  {
    match cur
    case None => Completed(ctx)
    case Some(s) =>
      if fuel == 0 then OutOfFuel
      else
        match Execute(s, g, env, ctx, fuel - 1)
        case Advance(next, after) => Loop(g, env, next, after, fuel - 1)
        case Halt(e, after) => Failed(StateFailed(s.name, e), after)
        case Exhausted => OutOfFuel
  }

  /** `Execute` of every state variant, against the graph `g` it is running in. */
  function Execute(s: State, g: Graph, env: Env, ctx: Context, fuel: nat): Transition
    decreases fuel, 4, 0
  {
    match s
    case Task(_, work, next, retries, catches, end, _) =>
      TaskStep(env.work(work), next, retries, catches, end, g, ctx)
    case Pass(_, next, modifier) =>
      var after := match modifier case Some(m) => env.modifier(m)(ctx) case None => ctx;
      Advance(GetState(g, next), after)
    case Choice(_, choices, defaultState) =>
      Advance(GetState(g, SelectNext(choices, defaultState, ctx)), ctx)
    case Wait(_, _, next) =>
      Advance(GetState(g, next), ctx)
    case Map(_, input, result, next, branch) =>
      MapStep(input, result, next, branch, g, env, ctx, fuel)
    case Parallel(_, branches, next) =>
      ParallelStep(branches, next, g, env, ctx, fuel)
    case Fail(name) =>
      Halt(FailureInState(name), ctx)
    case End(_) =>
      Advance(None, ctx)
  }

  /** A Task state: success moves to `next` (or ends, for a terminal task), a caught
      error moves to the catch target, an uncaught one halts. */
  function TaskStep(work: Work, next: string, retries: seq<RetryRule>, catches: seq<CatchRule>,
                    end: bool, g: Graph, ctx: Context): Transition
  {
    match RunTask(work, retries, catches, ctx)
    case Succeeded(after, _) => Advance(if end then Some(TaskEndState) else GetState(g, next), after)
    case Caught(target, after, _) => Advance(GetState(g, target), after)
    case Raised(e, after, _) => Halt(e, after)
  }

  /** A Map state: check the input, run the template per element, join. */
  function MapStep(input: string, result: string, next: string, branch: Graph,
                   g: Graph, env: Env, ctx: Context, fuel: nat): Transition
    decreases fuel, 3, 0
  {
    if input !in ctx || !ctx[input].Arr? then Halt(NotAnArray(input), ctx)
    else
      match Join(RunBranches(MapJobs(branch, ctx[input].items), env, fuel))
      case JoinExhausted => Exhausted
      case BranchFailed(i, e) => Halt(MapIterationFailed(i, e), ctx)
      case Joined(outputs) => Advance(GetState(g, next), ctx[result := Arr(outputs)])
  }

  /** A Parallel state: run every branch on an empty context, join. */
  function ParallelStep(branches: seq<Graph>, next: string, g: Graph, env: Env, ctx: Context, fuel: nat): Transition
    decreases fuel, 3, 0
  {
    match Join(RunBranches(ParallelJobs(branches), env, fuel))
    case JoinExhausted => Exhausted
    case BranchFailed(i, e) => Halt(ParallelBranchFailed(i, e), ctx)
    case Joined(outputs) => Advance(GetState(g, next), ctx[ParallelOutputKey := Arr(outputs)])
  }

  /** A Map state's branch runs: the template once per item, each on a fresh context
      holding only that item under `item`. */
  function MapJobs(branch: Graph, items: seq<Value>): (jobs: seq<(Graph, Context)>)
    ensures |jobs| == |items|
    ensures forall i :: 0 <= i < |items| ==> jobs[i] == (branch, map[ItemKey := items[i]])
  {
    seq(|items|, i requires 0 <= i < |items| => (branch, map[ItemKey := items[i]]))
  }

  /** A Parallel state's branch runs: each branch on an empty context. */
  function ParallelJobs(branches: seq<Graph>): (jobs: seq<(Graph, Context)>)
    ensures |jobs| == |branches|
    ensures forall i :: 0 <= i < |branches| ==> jobs[i] == (branches[i], map[])
  {
    seq(|branches|, i requires 0 <= i < |branches| => (branches[i], map[]))
  }

  /** One nested run per job (a graph and its initial context), in job order. */
  function RunBranches(jobs: seq<(Graph, Context)>, env: Env, fuel: nat): (rs: seq<RunResult>)
    ensures |rs| == |jobs|
    ensures forall i :: 0 <= i < |jobs| ==> rs[i] == Run(jobs[i].0, env, jobs[i].1, fuel)
    decreases fuel, 2, |jobs|
  {
    if |jobs| == 0 then []
    else [Run(jobs[0].0, env, jobs[0].1, fuel)] + RunBranches(jobs[1..], env, fuel)
  }

  /** The join of a fan-out state once every branch has finished. */
  datatype JoinOutcome =
    | Joined(outputs: seq<Value>)
    | BranchFailed(index: nat, err: Error)
    | JoinExhausted

  /** Wait-all join: a branch out of fuel keeps the join from finishing; otherwise a
      failed branch fails the join (the lowest failing index is the one reported);
      otherwise every branch's final context becomes an output, in branch order. */
  function Join(rs: seq<RunResult>): (j: JoinOutcome)
    ensures j.JoinExhausted? <==> exists i :: 0 <= i < |rs| && rs[i].OutOfFuel?
    ensures j.BranchFailed? ==>
              && j.index < |rs| && rs[j.index].Failed? && j.err == rs[j.index].err
              && forall i :: 0 <= i < j.index ==> !rs[i].Failed?
    ensures j.Joined? <==> forall i :: 0 <= i < |rs| ==> rs[i].Completed?
    ensures j.Joined? ==>
              && |j.outputs| == |rs|
              && forall i :: 0 <= i < |rs| ==> j.outputs[i] == Obj(rs[i].ctx)
  {
    if exists i :: 0 <= i < |rs| && rs[i].OutOfFuel? then JoinExhausted
    else
      match FirstIndex(rs, (r: RunResult) => r.Failed?)
      case Some(i) => BranchFailed(i, rs[i].err)
      case None => Joined(seq(|rs|, i requires 0 <= i < |rs| => Obj(rs[i].ctx)))
  }
}
