# go-statemachine in Dafny

This is a model of the execution engine of go-statemachine, a Go interpreter for
workflows in the style of step functions. A workflow is a graph of named states:

- Task runs a unit of work, with retry and catch rules keyed by error name.
- Pass, Wait, Fail and End are the simple states.
- Choice routes on typed equality conditions.
- Map runs a sub-workflow once per element of an array.
- Parallel runs a fixed list of sub-workflows.

A workflow is built either with a fluent builder or from a decoded JSON document.

The model is purely functional:

- Values, contexts, states, graphs and errors are immutable datatypes.
- Each state variant is one case of a step function, `Engine.Execute`.
- The run loop, `Engine.Run`, is bounded by fuel because graphs may cycle.
- A unit of work is an oracle: given the context and the attempt index, it returns the context the attempt left and how the attempt ended. The possible endings are success, an error, or expiry of the attempt's timeout scope.
- Map and Parallel run their branches one after the other and then join them. This sequential fold matches the concurrent join only because the model's values are immutable and its units of work are pure functions. In the original, branches can share mutable data: a Map branch's context holds the input element itself, and a Go map or slice element is a reference shared with the parent's input and with the collected output. Units of work are closures that branches share.

| file | module | models |
|---|---|---|
| wrappers.dfy | Wrappers | `Option`, `Result` |
| seqs.dfy | Seqs | first-match scan, maximum, "only this key changed" |
| strings.dfy | Strings | `strings.TrimPrefix`, `%d` |
| errors.dfy | Errors | `CustomError`, `%w` wrapping, `errors.As` name lookup |
| states.dfy | States | values, contexts, rules, the eight state variants, graphs, `GetState` |
| choices.dfy | Choices | `evaluateCondition`, `ChoiceState.Execute` |
| tasks.dfy | Tasks | the attempt loop and the catch scan of `TaskState.Execute` |
| engine.dfy | Engine | `Run`, `Execute` of every variant, the Map/Parallel join |
| fanout.dfy | FanOut | Map and Parallel success and failure semantics |
| runfacts.dfy | RunFacts | the run loop as a trace of transitions |
| fuel.dfy | Fuel | fuel does not change a result once one is reached |
| builders.dfy | Builders | `StateMachineBuilder` |
| parser.dfy | Parser | `ParseStateMachine` / `parseSubMachine` from decoded records |
| scenarios.dfy | Scenarios | the retry, timeout and choice examples of the test file |

Points where the code behaves in a way a reader might not expect, which the model follows:

- **Map input error.** A Map whose input entry is missing or not an array returns the plain error `input '<key>' is not an array` (`statemachine/map.go:25-28`), and the model does the same (`FanOut.MapInputNotArray`).
- **Dangling transitions.** A transition to an unregistered name makes `GetState` return nil, and the run then completes successfully with the context the last state handed on (`RunFacts.TransitionToUnknownNameCompletes`).
- **Duplicated parser.** `statemachine/state.go:85-254` repeats `statemachine/parser.go:12-181`. The translation is modelled once, citing `parser.go`.

## Model

| member | source | states |
|---|---|---|
| RunFacts.LoopHasTrace | statemachine/statemachine.go:38-51 | a run that reaches a result went through a trace: each state saw the context its predecessor left; completion means the last state yielded no next state; failure means the last state erred, with "state '<name>' failed: " wrapped around its error |
| RunFacts.TraceDeterminesLoop | statemachine/statemachine.go:42-50 | conversely, a trace ending in no-next completes with the last context, and a trace ending in an error fails with the last state's name and the context it left |
| RunFacts.RunWithoutStartState | statemachine/statemachine.go:40-42 | with an unregistered start name no state runs and the run succeeds with the initial data |
| RunFacts.RunStartsAtStartState | statemachine/statemachine.go:39-40 | a finished run's trace begins at the start state with the initial data |
| RunFacts.TransitionToUnknownNameCompletes | statemachine/statemachine.go:33-47 | a transition to an unregistered name ends the run successfully with whatever context the last state handed on |
| RunFacts.TaskStepOutcomes | statemachine/task.go:66-98 | a Task moves to `next` (to a fresh End state when terminal) on success and to the catch target on a caught error, both with the attempts' context and no error; an uncaught error halts the run unchanged |
| RunFacts.ChoiceNeverFails | statemachine/choice.go:26-36 | a Choice never fails: it moves to the state of the first satisfied rule, else the default, with the context unchanged |
| RunFacts.TerminalStates | statemachine/state.go:301-318 | Fail ends the run with "state '<n>' failed: failure in state <n>" and the context unchanged; End ends it successfully |
| RunFacts.PassAndWait | statemachine/state.go:267-290 | Pass applies its modifier only when present and Wait changes nothing; both move to `next` without error |
| Fuel.RunFuelMonotone | statemachine/statemachine.go:38-51 | a run that reaches a result reaches the same result with any larger fuel, so the bound is not behaviour |
| Fuel.LoopFuelMonotone | statemachine/statemachine.go:42-49 | the same for the loop from any current state |
| Fuel.ExecuteFuelMonotone | statemachine/map.go:34-53 | a step (including a fan-out over nested runs) that does not run out of fuel takes the same transition with more |
| Fuel.BranchesFuelMonotone | statemachine/parallel.go:26-41 | nested runs none of which runs out of fuel give the same results with more fuel |
| Errors.Chain | statemachine/error.go:15-18 | the unwrap chain starts at the error, each link unwraps to the next, and the last does not unwrap |
| Errors.NameOfIsFirstNamedLink | statemachine/task.go:77-78 | the name `errors.As` finds is that of the first named link of the unwrap chain; none when no link is named |
| Errors.WrappingKeepsName | statemachine/statemachine.go:45 | wrapping with `%w` keeps the matchable name and prefixes the message |
| Errors.ChainMessagesAreSuffixes | statemachine/error.go:11-18 | the message of every link of the chain ends the message of the whole error |
| Errors.SentinelNames | statemachine/error.go:21-24 | `ErrAPIBadGateway` is named API_BAD_GATEWAY, `ErrTimeout` is named TIMEOUT with message "TIMEOUT: task timed out" |
| Choices.CompareIsTypedEquality | statemachine/choice.go:64-75 | each operator holds exactly when both sides have its type and are equal |
| Choices.PresentOperators | statemachine/choice.go:62-77 | the operators considered are exactly the operator keys the condition carries |
| Choices.EvaluationIsAPossibleVerdict | statemachine/choice.go:62-78 | the model's verdict is one some key order of the Go map gives, and the only one with at most one operator key |
| Choices.ConditionCases | statemachine/choice.go:38-79 | an absent operand or no operator key makes a condition false; one operator key makes it that operator's typed equality |
| Choices.SelectNext | statemachine/choice.go:26-36 | the first satisfied rule in declaration order decides; with none satisfied, the default |
| Tasks.AttemptError | statemachine/task.go:59-64 | an attempt errs exactly when it did not succeed; a failed attempt's error is the unit of work's own error, unchanged; an expired scope is the named error TIMEOUT |
| Tasks.RetryBudget | statemachine/task.go:75-86 | the largest retry allowance over the rules, bounding every rule's allowance |
| Tasks.RetryLoop | statemachine/task.go:45-88 | at least one attempt and at most one more than the largest allowance; when the loop ends in an error, no rule matches it or the matched rule's allowance is used up |
| Tasks.RetryLoopIsReplay | statemachine/task.go:45-88 | attempts run back to back on the same context, so failed attempts' changes persist; the final error is the last attempt's error, unchanged |
| Tasks.RetryLoopContext | statemachine/task.go:45-88 | each attempt starts on the context the previous one left, so the loop ends with the context of replaying all its attempts |
| Tasks.RetryLoopError | statemachine/task.go:75-88 | the loop's final error is the error of its last attempt, passed on unchanged |
| Tasks.RetriedBeforeLast | statemachine/task.go:75-87 | every attempt before the last failed with an error whose first matching rule still allowed a retry at that index |
| Tasks.AlwaysFailingRunsAllowancePlusOne | statemachine/task.go:84-85 | an always failing unit of work matched by a rule with allowance k runs exactly k+1 times (once when k is not positive) |
| Tasks.RunTask | statemachine/task.go:41-99 | success exactly when the last attempt succeeded; a caught error goes to the first matching catch rule's target; an error no catch rule matches is raised unchanged; the context and count are the attempt loop's |
| Tasks.UnnamedErrorIsFatal | statemachine/task.go:75-98 | an error without a name is neither retried nor caught: one attempt, error raised |
| Tasks.ExpiryIsCaughtAsTimeout | statemachine/task.go:59-96 | when no retry rule names TIMEOUT, an expired attempt is not retried and is caught by the first catch rule for TIMEOUT |
| Engine.RunBranches | statemachine/map.go:34-53 | one nested run per job, in job order, each from the graph's start state |
| Engine.Join | statemachine/map.go:53-60 | join after all runs: any failure fails the join, reporting a failing index with no failure before it; otherwise one output per run, in run order, each the run's final context |
| FanOut.MapInputNotArray | statemachine/map.go:25-28 | a missing or non-array input fails with "input '<key>' is not an array" and the context unchanged |
| FanOut.MapSuccess | statemachine/map.go:30-63 | a Map succeeds exactly when every branch completes; then `result` holds one entry per element, entry i branch i's final context, and no other key changes |
| FanOut.MapFailure | statemachine/map.go:44-58 | a failed Map leaves the context unchanged; its error is the not-an-array error or "map iteration <i> failed: " around the error of a failing branch i |
| FanOut.ParallelSuccess | statemachine/parallel.go:20-50 | a Parallel succeeds exactly when every branch completes; then `parallel_output` holds one entry per branch, in branch order, and no other key changes |
| FanOut.ParallelFailure | statemachine/parallel.go:32-46 | a failed Parallel leaves the context unchanged; its error is "parallel branch <i> failed: " around the error of a failing branch i |
| Strings.TrimPrefix | statemachine/parser.go:69-70 | the prefix is removed when present and the string kept otherwise |
| Strings.NatToStringRoundTrip | statemachine/map.go:46 | a printed index reads back as the index |
| FanOut.BranchErrorsNameTheirIndex | statemachine/map.go:46 | two "map iteration <i> failed: " errors (likewise "parallel branch <i> failed: ", `statemachine/parallel.go:34`) are equal only for the same index and the same inner error, so the message identifies the branch |
| Builders.NewBuilder | statemachine/builder.go:11-15 | a new builder has no states and cannot be built |
| Builders.StartAt | statemachine/builder.go:17-20 | the start name becomes the given name whether or not it is registered yet, and the states are kept; the builder then builds exactly when that name is registered |
| Builders.ApplyOptionsClassifies | statemachine/builder.go:24-34 | options append exactly their retry and catch rules in order; the last int sets the timeout; the task is terminal exactly when some option is `true` |
| Builders.AddTask | statemachine/builder.go:22-37 | registers a Task under its name whose rules, timeout and terminal flag are those the options classify to; nothing else changes |
| Builders.AddPass | statemachine/builder.go:39-42 | registers the Pass under its name, replacing any earlier one; nothing else changes |
| Builders.AddMap | statemachine/builder.go:44-47 | the same for a Map state |
| Builders.AddChoice | statemachine/builder.go:49-52 | the same for a Choice state |
| Builders.AddWait | statemachine/builder.go:54-57 | the same for a Wait state |
| Builders.AddParallel | statemachine/builder.go:59-62 | the same for a Parallel state |
| Builders.AddFail | statemachine/builder.go:64-67 | the same for a Fail state |
| Builders.AddEnd | statemachine/builder.go:69-72 | the same for an End state |
| Builders.Build | statemachine/builder.go:74-84 | fails with "start state '<s>' not found" exactly when the start name is unregistered; otherwise the registered states, with the registered start state first |
| Builders.BuildOrDie | statemachine/builder.go:86-92 | callable exactly when Build succeeds, and returns Build's graph |
| Parser.WrapInt64 | statemachine/parser.go:45 | a duration product wraps into the signed 64-bit range and is unchanged when it fits |
| Parser.TranslateSubState | statemachine/parser.go:141-171 | a sub-state keeps its name and type; a sub-Task runs the work named after it and keeps next, terminal flag and timeout but gets no retry or catch rules; a sub-Choice gets its rules in order and its default; a sub-Wait its seconds and next |
| Parser.ParseSubMachine | statemachine/parser.go:132-181 | accepted exactly when every record is Task, Choice, Wait or End; then every state is the sub-state translation of its record under its key (so keeps its name, type, next state, terminal flag, timeout, choice rules, default and wait), tasks have no rules, and the start name is copied; otherwise the reported error is the unknown-sub-state error of one of the foreign records, any of them |
| Parser.ParseBranches | statemachine/parser.go:107-114 | branches are translated in order; the error is that of the first rejected branch |
| Parser.TranslateState | statemachine/parser.go:30-122 | a record is accepted exactly when its type is one of the eight and its sub-machines are accepted; the errors are exactly those the source can report for it |
| Parser.ParseStateMachine | statemachine/parser.go:23-129 | accepted exactly when every record is; the graph then has one state per record and the start name is copied unchecked; otherwise the possible errors are exactly the errors of the bad records |
| Parser.TranslatedStateShape | statemachine/parser.go:36-119 | one accepted record becomes a state with the record's name, type and next state; a Task keeps its flags and timeout and gets its retry and catch records as rules in order, keyed by the first error name; a Choice gets its rules in order and its default; a Wait its seconds; Map paths lose `$.`; a Map's template is the sub-machine parsed from its iterator, and a Parallel's branches are the sub-machines parsed from its branch definitions, in order |
| Parser.ParsedGraphShape | statemachine/parser.go:36-119 | in a translated graph every state has its key as name and its record's type; tasks run the work named after them; Pass has no modifier; Map paths lose `$.`; a Map's template is the sub-machine parsed from its iterator and a Parallel's branches those parsed from its branch definitions, in order; every other field is as in Parser.TranslatedStateShape |
| Scenarios.RetryThenCatchScenario | example/main_test.go:272-274 | three retries of the always failing task make four attempts, leave `attempts` at 4, and the error is caught to FailState |
| Scenarios.TimeoutMachineShape | example/main_test.go:331-338 | the builder calls of the timeout test register a task with timeout 1 and one TIMEOUT catch, starting there |
| Scenarios.TimeoutScenario | example/main_test.go:330-350 | the expiring task leads to failure in FailState with "state 'FailState' failed: " around "failure in state FailState" |
| Scenarios.ChoiceRoutesGo | example/main_test.go:260-269 | the value "go" selects TestParallelState |
| Scenarios.ChoiceRoutesTen | example/main_test.go:260-269 | the number 10 skips the string rule and selects SucceedingTask |
| Scenarios.ChoiceFallsThrough | example/main_test.go:260-269 | "other", or no `choice_value` at all, selects DefaultTask |

## Left out

- Goroutines, `sync.WaitGroup`, channels and `select` are not modelled. Fan-out branches are run in sequence and joined. A Task attempt's race against its timeout is an oracle outcome (`Expired`). When both the work and the scope are ready, `select` may take either; the oracle decides.
- `Engine.Join`: Go surfaces the first error sent on the channel, which can be any failing branch. The model reports the lowest failing index; the FanOut lemmas state "some failing i, none before it".
- Sleeps are not modelled: the pacing delay of the run loop, retry intervals and Wait durations. Timers, `context.WithTimeout`, `defer cancel` and parent cancellation are also left out. All of these only delay the run or feed the `Expired` outcome.
- The abandoned goroutine of a timed-out attempt keeps writing to the context. Its later writes are not modelled, because they race with the rest of the run.
- `fmt.Printf` logging is not modelled.
- Reading the file and decoding the JSON are not modelled (`statemachine/parser.go:13-27` and the unmarshal errors). The translation starts from decoded records.
- `Parser.ParseStateMachine` requires every Task record's `ErrorEquals` lists to be non-empty. The source indexes `[0]` and would panic.
- `Builders.BuildOrDie`: the panic is modelled as the precondition that Build succeeds.
- A Task without a registered function is not modelled. `Env` gives every name a unit of work, whereas the source would call a nil function.
- Go floats are modelled as mathematical reals, so rounding and NaN are not modelled. In Go a NaN operand makes `NumericEquals` false even against a NaN (`statemachine/choice.go:69-72`); a real cannot be NaN, so the model has no such case.
- `Choices.EvaluateCondition`: for a condition with several operator keys, Go's map order picks the deciding key. The model fixes the order StringEquals, NumericEquals, BooleanEquals and proves its verdict is one Go can give (`Choices.EvaluationIsAPossibleVerdict`).
- `Parser.ParseStateMachine` and `Parser.ParseSubMachine`: Go visits the records in map order and reports the first bad one met. The model returns the set of errors any one of which may be reported.
- `Errors.Error` unwraps one link at a time. Go's `errors.As` also searches error trees: `errors.Join` and a `fmt.Errorf` with several `%w`. It also honours a custom `As` method. A unit of work could return any of these, but the model's errors are single-link chains of `CustomError` and `%w` wrappers.
- Pointer aliasing is not modelled: the run keeping the caller's map, and the builder sharing its map with built machines. Nor is mutation through references shared between concurrent branches: a map or slice element handed to several Map branches and also stored in the output, or state captured by a unit-of-work closure. The model's values are immutable and its units of work are pure, so no branch can see another's writes; in the original such writes race.
- The builder-versus-document round trip is not modelled. The document front-end drops Pass modifiers and ties work to state names, so the two graphs coincide only on a restricted class of workflows.
- The end-to-end run of the full programmatic test workflow is not modelled. Its pieces are covered by the scenario lemmas for the retry, timeout and choice steps.
- Running out of fuel (`OutOfFuel`) has no Go counterpart. `Fuel.RunFuelMonotone` shows it never changes a result that is reached.
