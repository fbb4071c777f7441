/** Join semantics of the fan-out states. A Map state runs its template once per
    input element and a Parallel state runs each of its branches; on success the
    parent context gains exactly one entry, the index-ordered branch outputs; on any
    branch failure the parent context is left as it was. */
module FanOut {
  import opened Wrappers
  import opened Seqs
  import opened Strings
  import opened Errors
  import opened States
  import opened Engine

  /** The run of Map branch `i`: the template from its own start state on a context
      holding only the element. */
  function MapBranchRun(s: State, items: seq<Value>, i: nat, env: Env, fuel: nat): RunResult
    requires s.Map? && i < |items|
  {
    Run(s.branch, env, map[ItemKey := items[i]], fuel)
  }

  /** A Map state whose input entry is missing or not a sequence fails with
      "input '<key>' is not an array" and leaves the context untouched. */
  lemma MapInputNotArray(s: State, g: Graph, env: Env, ctx: Context, fuel: nat)
    requires s.Map? && (s.input !in ctx || !ctx[s.input].Arr?)
    ensures Execute(s, g, env, ctx, fuel) == Halt(NotAnArray(s.input), ctx)
    ensures Message(NotAnArray(s.input)) == "input '" + s.input + "' is not an array"
  {
  }

  /** A Map state over a sequence succeeds exactly when every branch run completes.
      Then it moves to the state named `next`, writes under `result` a sequence with one
      entry per element, entry i being branch i's final context, and changes nothing
      else in the parent context. */
  lemma {:induction false} MapSuccess(s: State, g: Graph, env: Env, ctx: Context, fuel: nat)
    requires s.Map? && s.input in ctx && ctx[s.input].Arr?
    ensures var items := ctx[s.input].items;
      Execute(s, g, env, ctx, fuel).Advance? <==>
        forall i :: 0 <= i < |items| ==> MapBranchRun(s, items, i, env, fuel).Completed?
    ensures var items := ctx[s.input].items;
      var t := Execute(s, g, env, ctx, fuel);
      t.Advance? ==>
        && t.next == GetState(g, s.next)
        && OnlyKeyChanged(ctx, t.ctx, s.result)
        && t.ctx[s.result].Arr?
        && |t.ctx[s.result].items| == |items|
        && forall i :: 0 <= i < |items| ==>
             t.ctx[s.result].items[i] == Obj(MapBranchRun(s, items, i, env, fuel).ctx)
  {
    var items := ctx[s.input].items;
    var rs := RunBranches(MapJobs(s.branch, items), env, fuel);
    assert forall i :: 0 <= i < |items| ==> rs[i] == MapBranchRun(s, items, i, env, fuel);
  }

  /** A failed Map state leaves the parent context as it was. Its error is either the
      not-an-array error or "map iteration <i> failed: " wrapped around the error of a
      branch i that failed, no branch before i having failed. */
  lemma {:induction false} MapFailure(s: State, g: Graph, env: Env, ctx: Context, fuel: nat)
    requires s.Map?
    ensures var t := Execute(s, g, env, ctx, fuel);
      t.Halt? ==>
        && t.ctx == ctx
        && (if s.input !in ctx || !ctx[s.input].Arr? then t.err == NotAnArray(s.input)
            else
              var items := ctx[s.input].items;
              exists i :: 0 <= i < |items|
                && MapBranchRun(s, items, i, env, fuel).Failed?
                && t.err == MapIterationFailed(i, MapBranchRun(s, items, i, env, fuel).err)
                && forall j :: 0 <= j < i ==> !MapBranchRun(s, items, j, env, fuel).Failed?)
  {
    if s.input in ctx && ctx[s.input].Arr? {
      var items := ctx[s.input].items;
      var rs := RunBranches(MapJobs(s.branch, items), env, fuel);
      assert forall i :: 0 <= i < |items| ==> rs[i] == MapBranchRun(s, items, i, env, fuel);
      var t := Execute(s, g, env, ctx, fuel);
      assert t == MapStep(s.input, s.result, s.next, s.branch, g, env, ctx, fuel);
      if t.Halt? {
        assert Join(rs).BranchFailed?;
        var i := Join(rs).index;
        assert MapBranchRun(s, items, i, env, fuel).Failed?;
      }
    }
  }

  /** The run of Parallel branch `i`: that branch from its own start state on an
      empty context. */
  function ParallelBranchRun(s: State, i: nat, env: Env, fuel: nat): RunResult
    requires s.Parallel? && i < |s.branches|
  {
    Run(s.branches[i], env, map[], fuel)
  }

  /** A Parallel state succeeds exactly when every branch run completes. Then it moves
      to `next`, writes under "parallel_output" one entry per branch, entry i being
      branch i's final context, and changes nothing else in the parent context. */
  lemma {:induction false} ParallelSuccess(s: State, g: Graph, env: Env, ctx: Context, fuel: nat)
    requires s.Parallel?
    ensures Execute(s, g, env, ctx, fuel).Advance? <==>
      forall i :: 0 <= i < |s.branches| ==> ParallelBranchRun(s, i, env, fuel).Completed?
    ensures var t := Execute(s, g, env, ctx, fuel);
      t.Advance? ==>
        && t.next == GetState(g, s.next)
        && OnlyKeyChanged(ctx, t.ctx, ParallelOutputKey)
        && t.ctx[ParallelOutputKey].Arr?
        && |t.ctx[ParallelOutputKey].items| == |s.branches|
        && forall i :: 0 <= i < |s.branches| ==>
             t.ctx[ParallelOutputKey].items[i] == Obj(ParallelBranchRun(s, i, env, fuel).ctx)
  {
    var rs := RunBranches(ParallelJobs(s.branches), env, fuel);
    assert forall i :: 0 <= i < |s.branches| ==> rs[i] == ParallelBranchRun(s, i, env, fuel);
  }

  /** A failed Parallel state leaves the parent context as it was; its error is
      "parallel branch <i> failed: " wrapped around the error of a failed branch i, no
      branch before i having failed. */
  lemma {:induction false} ParallelFailure(s: State, g: Graph, env: Env, ctx: Context, fuel: nat)
    requires s.Parallel?
    ensures var t := Execute(s, g, env, ctx, fuel);
      t.Halt? ==>
        && t.ctx == ctx
        && exists i :: 0 <= i < |s.branches|
             && ParallelBranchRun(s, i, env, fuel).Failed?
             && t.err == ParallelBranchFailed(i, ParallelBranchRun(s, i, env, fuel).err)
             && forall j :: 0 <= j < i ==> !ParallelBranchRun(s, j, env, fuel).Failed?
  {
    var rs := RunBranches(ParallelJobs(s.branches), env, fuel);
    assert forall i :: 0 <= i < |s.branches| ==> rs[i] == ParallelBranchRun(s, i, env, fuel);
    var t := Execute(s, g, env, ctx, fuel);
    assert t == ParallelStep(s.branches, s.next, g, env, ctx, fuel);
    if t.Halt? {
      assert Join(rs).BranchFailed?;
      var i := Join(rs).index;
      assert ParallelBranchRun(s, i, env, fuel).Failed?;
    }
  }

  /** The wrapped error of a failed branch identifies the branch: two such errors are
      equal only when they name the same index and wrap the same error. */
  lemma BranchErrorsNameTheirIndex(i: nat, j: nat, e: Error, e': Error)
    ensures MapIterationFailed(i, e) == MapIterationFailed(j, e') ==> i == j && e == e'
    ensures ParallelBranchFailed(i, e) == ParallelBranchFailed(j, e') ==> i == j && e == e'
  {
    var di, dj := NatToString(i), NatToString(j);
    var mi, mj := "map iteration " + di + " failed: ", "map iteration " + dj + " failed: ";
    if mi == mj {
      assert di == mi[14..|mi| - 9];
      assert dj == mj[14..|mj| - 9];
      NatToStringInjective(i, j);
    }
    var pi, pj := "parallel branch " + di + " failed: ", "parallel branch " + dj + " failed: ";
    if pi == pj {
      assert di == pi[16..|pi| - 9];
      assert dj == pj[16..|pj| - 9];
      NatToStringInjective(i, j);
    }
  }
}
