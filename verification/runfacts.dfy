/** The run loop described as a trace: the states a run executes, in transition
    order, with the context each one sees. Each state sees the context its
    predecessor left; a run completes exactly when the last state of such a trace
    yields no next state, and fails exactly when the last state errs, with that
    state's name wrapped around its error; no state runs after it. */
module RunFacts {
  import opened Wrappers
  import opened Errors
  import opened States
  import opened Choices
  import opened Tasks
  import opened Engine

  /** What the loop does after `s` took transition `t`, with `f` fuel left. */
  ghost function Continue(s: State, t: Transition, g: Graph, env: Env, f: nat): RunResult
  {
    match t
    case Advance(next, after) => Loop(g, env, next, after, f)
    case Halt(e, after) => Failed(StateFailed(s.name, e), after)
    case Exhausted => OutOfFuel
  }

  /** One iteration of the loop: execute the current state, then continue. */
  lemma LoopStep(g: Graph, env: Env, s: State, ctx: Context, f: nat)
    requires f >= 1
    ensures Loop(g, env, Some(s), ctx, f) == Continue(s, Execute(s, g, env, ctx, f - 1), g, env, f - 1)
  {
  }

  /** `ss` and `cs` are the states a run with `fuel` executes and the contexts they
      see: each state but the last hands the next one its successor and context. */
  ghost predicate Trace(g: Graph, env: Env, fuel: nat, ss: seq<State>, cs: seq<Context>)
  {
    && 1 <= |ss| <= fuel
    && |cs| == |ss|
    && forall i :: 0 <= i < |ss| - 1 ==> Hands(g, env, ss[i], cs[i], fuel - 1 - i, ss[i + 1], cs[i + 1])
  }

  /** State `s`, executed on `c` with fuel `f`, hands the loop state `s'` and context `c'`. */
  ghost predicate Hands(g: Graph, env: Env, s: State, c: Context, f: nat, s': State, c': Context)
  {
    Execute(s, g, env, c, f) == Advance(Some(s'), c')
  }

  /** What the last state of a trace does. */
  ghost function LastStep(g: Graph, env: Env, fuel: nat, ss: seq<State>, cs: seq<Context>): Transition
    requires Trace(g, env, fuel, ss, cs)
  {
    Execute(ss[|ss| - 1], g, env, cs[|cs| - 1], fuel - |ss|)
  }

  lemma TraceTail(g: Graph, env: Env, fuel: nat, ss: seq<State>, cs: seq<Context>)
    requires Trace(g, env, fuel, ss, cs) && |ss| > 1
    ensures Trace(g, env, fuel - 1, ss[1..], cs[1..])
    ensures LastStep(g, env, fuel - 1, ss[1..], cs[1..]) == LastStep(g, env, fuel, ss, cs)
  {
    forall i | 0 <= i < |ss| - 2
      ensures Hands(g, env, ss[1..][i], cs[1..][i], fuel - 1 - 1 - i, ss[1..][i + 1], cs[1..][i + 1])
    {
      assert Hands(g, env, ss[i + 1], cs[i + 1], fuel - 1 - (i + 1), ss[i + 2], cs[i + 2]);
    }
  }

  lemma TraceCons(g: Graph, env: Env, fuel: nat, s: State, ctx: Context, ss: seq<State>, cs: seq<Context>)
    requires fuel >= 1 && Trace(g, env, fuel - 1, ss, cs)
    requires Execute(s, g, env, ctx, fuel - 1) == Advance(Some(ss[0]), cs[0])
    ensures Trace(g, env, fuel, [s] + ss, [ctx] + cs)
    ensures LastStep(g, env, fuel, [s] + ss, [ctx] + cs) == LastStep(g, env, fuel - 1, ss, cs)
  {
    var ss2, cs2 := [s] + ss, [ctx] + cs;
    forall i | 0 <= i < |ss2| - 1
      ensures Hands(g, env, ss2[i], cs2[i], fuel - 1 - i, ss2[i + 1], cs2[i + 1])
    {
      if i > 0 {
        assert ss2[i] == ss[i - 1] && cs2[i] == cs[i - 1];
        assert ss2[i + 1] == ss[i] && cs2[i + 1] == cs[i];
        assert Hands(g, env, ss[i - 1], cs[i - 1], fuel - 1 - 1 - (i - 1), ss[i], cs[i]);
      }
    }
    assert ss2[|ss2| - 1] == ss[|ss| - 1];
  }

  /** A loop that reaches a result other than out-of-fuel went through a trace from the
      current state and context, and its result is what the trace's last step says:
      completion with the last context when the last state yields no successor,
      failure naming the last state when it errs. */
  lemma {:induction false} LoopHasTrace(g: Graph, env: Env, s: State, ctx: Context, fuel: nat)
    returns (ss: seq<State>, cs: seq<Context>)
    requires Loop(g, env, Some(s), ctx, fuel) != OutOfFuel
    ensures Trace(g, env, fuel, ss, cs) && ss[0] == s && cs[0] == ctx
    ensures var r := Loop(g, env, Some(s), ctx, fuel);
      var last := LastStep(g, env, fuel, ss, cs);
      && (r.Completed? ==> last == Advance(None, r.ctx))
      && (r.Failed? ==> last.Halt? && last.ctx == r.ctx && r.err == StateFailed(ss[|ss| - 1].name, last.err))
    decreases fuel
  {
    LoopStep(g, env, s, ctx, fuel);
    var t := Execute(s, g, env, ctx, fuel - 1);
    if t.Advance? && t.next.Some? {
      var ss', cs' := LoopHasTrace(g, env, t.next.value, t.ctx, fuel - 1);
      TraceCons(g, env, fuel, s, ctx, ss', cs');
      ss, cs := [s] + ss', [ctx] + cs';
    } else {
      ss, cs := [s], [ctx];
    }
  }

  /** Conversely, a trace determines the run: whatever the last state of a trace from
      `s` does fixes the result of the loop started at `s`. */
  lemma {:induction false} TraceDeterminesLoop(g: Graph, env: Env, fuel: nat, ss: seq<State>, cs: seq<Context>)
    requires Trace(g, env, fuel, ss, cs)
    ensures var last := LastStep(g, env, fuel, ss, cs);
      && (last.Advance? && last.next.None? ==> Loop(g, env, Some(ss[0]), cs[0], fuel) == Completed(last.ctx))
      && (last.Halt? ==>
            Loop(g, env, Some(ss[0]), cs[0], fuel) == Failed(StateFailed(ss[|ss| - 1].name, last.err), last.ctx))
    decreases |ss|
  {
    if |ss| > 1 {
      TraceTail(g, env, fuel, ss, cs);
      TraceDeterminesLoop(g, env, fuel - 1, ss[1..], cs[1..]);
      assert Hands(g, env, ss[0], cs[0], fuel - 1, ss[1], cs[1]);
    }
  }

  /** A run whose start name is not registered executes nothing and succeeds with the
      initial data, whatever the fuel. */
  lemma RunWithoutStartState(g: Graph, env: Env, init: Context, fuel: nat)
    requires g.startAt !in g.states
    ensures Run(g, env, init, fuel) == Completed(init)
  {
  }

  /** A run that reaches a result starts with the registered start state and the
      initial data, and executes a trace from there. */
  lemma RunStartsAtStartState(g: Graph, env: Env, init: Context, fuel: nat)
    requires Run(g, env, init, fuel) != OutOfFuel
    requires g.startAt in g.states
    ensures exists ss, cs :: Trace(g, env, fuel, ss, cs) && ss[0] == g.states[g.startAt] && cs[0] == init
  {
    var ss, cs := LoopHasTrace(g, env, g.states[g.startAt], init, fuel);
  }

  /** A transition to a name that is not registered ends the run successfully, with
      the context the last state handed on. */
  lemma TransitionToUnknownNameCompletes(g: Graph, env: Env, s: State, ctx: Context, fuel: nat,
                                         name: string, after: Context)
    requires fuel >= 1 && name !in g.states
    requires Execute(s, g, env, ctx, fuel - 1) == Advance(GetState(g, name), after)
    ensures Loop(g, env, Some(s), ctx, fuel) == Completed(after)
  {
  }

  /** How a Task state moves the run, by what its attempts and catch scan give: on
      success to `next` (to a fresh End state for a terminal task), on a caught error
      to the catch target, both with the context the attempts left and without error;
      on a raised error it halts with that error unchanged. It never runs out of fuel. */
  lemma TaskStepOutcomes(s: State, g: Graph, env: Env, ctx: Context, fuel: nat)
    requires s.Task?
    ensures var o := RunTask(env.work(s.work), s.retries, s.catches, ctx);
      var t := Execute(s, g, env, ctx, fuel);
      && (o.Succeeded? ==> t == Advance(if s.end then Some(End("End")) else GetState(g, s.next), o.ctx))
      && (o.Caught? ==> t == Advance(GetState(g, o.target), o.ctx))
      && (o.Raised? ==> t == Halt(o.err, o.ctx))
  {
  }

  /** A Choice state never fails: it moves to the state its first satisfied rule names
      (the default when none is), with the context unchanged. */
  lemma ChoiceNeverFails(s: State, g: Graph, env: Env, ctx: Context, fuel: nat)
    requires s.Choice?
    ensures Execute(s, g, env, ctx, fuel) == Advance(GetState(g, SelectNext(s.choices, s.defaultState, ctx)), ctx)
  {
  }

  /** Fail and End as the run loop sees them: a Fail state ends the run with
      "state '<name>' failed: failure in state <name>"; an End state ends it successfully
      with the context unchanged. */
  lemma TerminalStates(g: Graph, env: Env, name: string, ctx: Context, fuel: nat)
    requires fuel >= 1
    ensures Loop(g, env, Some(Fail(name)), ctx, fuel) == Failed(StateFailed(name, FailureInState(name)), ctx)
    ensures Message(StateFailed(name, FailureInState(name)))
      == "state '" + name + "' failed: " + "failure in state " + name
    ensures Loop(g, env, Some(End(name)), ctx, fuel) == Completed(ctx)
  {
  }

  /** Pass and Wait never fail: they move to the state named `next` (none when the
      name is unknown); Pass applies its modifier only when it has one, Wait leaves
      the context as it is. */
  lemma PassAndWait(g: Graph, env: Env, name: string, next: string, m: string, seconds: int, ctx: Context, fuel: nat)
    ensures Execute(Pass(name, next, None), g, env, ctx, fuel) == Advance(GetState(g, next), ctx)
    ensures Execute(Pass(name, next, Some(m)), g, env, ctx, fuel) == Advance(GetState(g, next), env.modifier(m)(ctx))
    ensures Execute(Wait(name, seconds, next), g, env, ctx, fuel) == Advance(GetState(g, next), ctx)
  {
  }
}
