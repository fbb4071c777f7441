/** The example workflows the repository exercises, replayed on the model: a task
    that always fails with API_BAD_GATEWAY under a three-retry rule and a catch, a
    task that outlives its timeout, and the choice state routing on `choice_value`. */
module Scenarios {
  import opened Wrappers
  import opened Errors
  import opened States
  import opened Choices
  import opened Tasks
  import opened Engine
  import opened Builders
  import opened RunFacts

  const AttemptsKey: string := "attempts"

  /** The attempt counter as the failing task reads it: the float under "attempts",
      or zero when the key is missing or holds something else. */
  function AttemptsOf(c: Context): real
  {
    if AttemptsKey in c && c[AttemptsKey].Float? then c[AttemptsKey].x else 0.0
  }

  /** The failing task: bump the counter, then fail with API_BAD_GATEWAY. */
  function CountAndFail(c: Context, attempt: nat): (Context, AttemptOutcome)
  {
    (c[AttemptsKey := Float(AttemptsOf(c) + 1.0)], Failure(ErrAPIBadGateway))
  }

  const BadGatewayRetry: RetryRule := RetryRule("API_BAD_GATEWAY", 50_000_000, 3)
  const BadGatewayCatch: CatchRule := CatchRule("API_BAD_GATEWAY", "FailState")

  /** The counter after `n` runs of the failing task. */
  lemma {:induction false} CounterAfterReplay(ctx: Context, i: nat, n: nat)
    ensures AttemptsOf(Replay(CountAndFail, ctx, i, n)) == AttemptsOf(ctx) + n as real
    ensures Replay(CountAndFail, ctx, i, n).Keys == ctx.Keys + (if n == 0 then {} else {AttemptsKey})
    ensures forall k :: k in ctx && k != AttemptsKey ==> Replay(CountAndFail, ctx, i, n)[k] == ctx[k]
    decreases n
  {
    if n > 0 {
      ReplayStep(CountAndFail, ctx, i, n - 1);
      CounterAfterReplay(CountAndFail(ctx, i).0, i + 1, n - 1);
    }
  }

  /** The retry test: three retries of an always failing task make four attempts,
      which leave the counter at 4, and the error is then caught and redirected to
      FailState; every other entry of the context is left as it was. */
  lemma RetryThenCatchScenario(ctx: Context)
    requires AttemptsOf(ctx) == 0.0
    ensures var r := RunTask(CountAndFail, [BadGatewayRetry], [BadGatewayCatch], ctx);
      && r.Caught? && r.target == "FailState" && r.count == 4
      && AttemptsOf(r.ctx) == 4.0
      && r.ctx.Keys == ctx.Keys + {AttemptsKey}
      && forall k :: k in ctx && k != AttemptsKey ==> r.ctx[k] == ctx[k]
  {
    var retries := [BadGatewayRetry];
    assert NameOf(ErrAPIBadGateway) == Some("API_BAD_GATEWAY");
    assert RetryMatch(retries, ErrAPIBadGateway) == Some(0);
    AlwaysFailingRunsAllowancePlusOne(CountAndFail, retries, ctx, 0, ErrAPIBadGateway, 0);
    RetryLoopIsReplay(CountAndFail, retries, ctx, 0);
    CounterAfterReplay(ctx, 0, 4);
    assert CatchMatch([BadGatewayCatch], ErrAPIBadGateway) == Some(0);
  }

  /** The timeout test's machine: a task with a one-second timeout whose expiry is
      caught and sent to FailState, built with the fluent builder. */
  function TimeoutBuilder(): Builder
  {
    var b := StartAt(NewBuilder(), "TestTimeoutTask");
    var b := AddTask(b, "TestTimeoutTask", "TestTimeoutTask", "End",
                     [IntOption(1), CatchOption(CatchRule("TIMEOUT", "FailState"))]);
    var b := AddFail(b, "FailState");
    AddEnd(b, "End")
  }

  /** What the builder calls of the timeout test register: the timeout becomes the
      task's timeout, the catch rule its only rule, and the start state is the task. */
  lemma TimeoutMachineShape()
    ensures var b := TimeoutBuilder();
      && b.startAt == "TestTimeoutTask" && b.startAt in b.states
      && b.states["TestTimeoutTask"]
           == Task("TestTimeoutTask", "TestTimeoutTask", "End", [], [CatchRule("TIMEOUT", "FailState")], false, 1)
      && b.states["FailState"] == Fail("FailState")
  {
  }

  /** A task whose only unit of work expires, with a TIMEOUT catch sending it to a
      Fail state, hands that Fail state the context unchanged. */
  lemma ExpiringTaskStep(g: Graph, env: Env, task: State, ctx: Context, fuel: nat)
    requires task.Task? && task.retries == [] && task.catches == [CatchRule("TIMEOUT", "FailState")]
    requires forall c, j :: env.work(task.work)(c, j) == (c, Expired)
    requires GetState(g, "FailState") == Some(Fail("FailState"))
    ensures Execute(task, g, env, ctx, fuel) == Advance(Some(Fail("FailState")), ctx)
  {
    var work := env.work(task.work);
    assert work(ctx, 0).1 == Expired;
    ExpiryIsCaughtAsTimeout(work, task.retries, task.catches, ctx, 0);
  }

  /** A machine starting at a task whose only unit of work expires, with a TIMEOUT
      catch sending it to a Fail state named FailState, fails there. */
  lemma ExpiryRunsIntoFailState(g: Graph, env: Env, init: Context, fuel: nat)
    requires fuel >= 2 && g.startAt in g.states
    requires var task := g.states[g.startAt];
      && task.Task? && task.retries == [] && task.catches == [CatchRule("TIMEOUT", "FailState")]
      && forall c, j :: env.work(task.work)(c, j) == (c, Expired)
    requires GetState(g, "FailState") == Some(Fail("FailState"))
    ensures Run(g, env, init, fuel) == Failed(StateFailed("FailState", FailureInState("FailState")), init)
  {
    var task := g.states[g.startAt];
    ExpiringTaskStep(g, env, task, init, fuel - 1);
    assert Run(g, env, init, fuel) == Loop(g, env, Some(Fail("FailState")), init, fuel - 1);
    TerminalStates(g, env, "FailState", init, fuel - 1);
  }

  /** The timeout test: when the task's attempt expires, the run ends in FailState
      with the context the task left; RunFacts.TerminalStates spells out the message. */
  lemma TimeoutScenario(env: Env, fuel: nat)
    requires forall c, j :: env.work("TestTimeoutTask")(c, j) == (c, Expired)
    requires fuel >= 2
    ensures TimeoutBuilder().startAt in TimeoutBuilder().states
    ensures Run(BuildOrDie(TimeoutBuilder()), env, map[], fuel)
              == Failed(StateFailed("FailState", FailureInState("FailState")), map[])
  {
    TimeoutMachineShape();
    ExpiryRunsIntoFailState(BuildOrDie(TimeoutBuilder()), env, map[], fuel);
  }

  /** The choice state of the programmatic workflow. */
  const TestChoices: seq<ChoiceRule> := [
    ChoiceRule(map["StringEquals" := Str("go")], "TestParallelState"),
    ChoiceRule(map["NumericEquals" := Float(10.0)], "SucceedingTask")
  ]

  /** The choice test with "go": the string rule matches and selects the parallel state. */
  lemma ChoiceRoutesGo(data: Context)
    ensures SelectNext(TestChoices, "DefaultTask", data[ImplicitKey := Str("go")]) == "TestParallelState"
  {
    var c0 := TestChoices[0].condition;
    assert OperandKey(c0) == ImplicitKey && PresentOperators(c0) == [StringEquals];
    ConditionCases(c0, data[ImplicitKey := Str("go")], StringEquals);
  }

  /** The choice test with 10: the string rule does not match a number, the numeric
      rule does and selects SucceedingTask. */
  lemma ChoiceRoutesTen(data: Context)
    ensures SelectNext(TestChoices, "DefaultTask", data[ImplicitKey := Float(10.0)]) == "SucceedingTask"
  {
    var c0, c1 := TestChoices[0].condition, TestChoices[1].condition;
    assert OperandKey(c0) == ImplicitKey && PresentOperators(c0) == [StringEquals];
    assert OperandKey(c1) == ImplicitKey && PresentOperators(c1) == [NumericEquals];
    ConditionCases(c0, data[ImplicitKey := Float(10.0)], StringEquals);
    ConditionCases(c1, data[ImplicitKey := Float(10.0)], NumericEquals);
  }

  /** The choice test with "other", and a context without `choice_value`: no rule
      matches and the default DefaultTask is selected. */
  lemma ChoiceFallsThrough(data: Context)
    ensures SelectNext(TestChoices, "DefaultTask", data[ImplicitKey := Str("other")]) == "DefaultTask"
    ensures ImplicitKey !in data ==> SelectNext(TestChoices, "DefaultTask", data) == "DefaultTask"
  {
    var c0, c1 := TestChoices[0].condition, TestChoices[1].condition;
    assert OperandKey(c0) == ImplicitKey && PresentOperators(c0) == [StringEquals];
    assert OperandKey(c1) == ImplicitKey && PresentOperators(c1) == [NumericEquals];
    ConditionCases(c0, data[ImplicitKey := Str("other")], StringEquals);
    ConditionCases(c1, data[ImplicitKey := Str("other")], NumericEquals);
    ConditionCases(c0, data, StringEquals);
    ConditionCases(c1, data, NumericEquals);
  }
}
