/** The data model of a workflow: dynamically typed values, the execution context,
    the eight state variants, rules, and the state graph (the source's StateMachine
    without its run cursor). Units of work and Pass modifiers are caller-supplied Go
    closures; here a state refers to them by name and an `Env` supplies them. */
module States {
  import opened Wrappers
  import opened Errors

  /** The dynamic values a context may hold: Go's string, int, float64 (as a real),
      bool, `[]any`, `map[string]any`, and nil. */
  datatype Value =
    | Str(s: string)
    | Int(i: int)
    | Float(x: real)
    | Bool(b: bool)
    | Arr(items: seq<Value>)
    | Obj(fields: map<string, Value>)
    | Null

  /** `StateContext.Data`: the key/value store threaded through one run. */
  type Context = map<string, Value>

  /** Retry on a named error: at most `maxAttempts` retries, `interval` nanoseconds apart. */
  datatype RetryRule = RetryRule(errorName: string, interval: int, maxAttempts: int)

  /** Redirect a named error (after retries) to `nextState`. */
  datatype CatchRule = CatchRule(errorName: string, nextState: string)

  /** A condition (a string-keyed map, as decoded) and the state it selects. */
  datatype ChoiceRule = ChoiceRule(condition: map<string, Value>, next: string)

  /** The state variants. Every variant carries its configured `name`, which is what
      `GetName` returns. `work` and `modifier` name a unit of work and a context
      modifier in the `Env`. `Map` runs `branch` once per item; `Parallel` runs each
      of `branches` once. */
  datatype State =
    | Task(name: string, work: string, next: string, retries: seq<RetryRule>,
           catches: seq<CatchRule>, end: bool, timeoutSeconds: int)
    | Pass(name: string, next: string, modifier: Option<string>)
    | Choice(name: string, choices: seq<ChoiceRule>, defaultState: string)
    | Wait(name: string, seconds: int, next: string)
    | Map(name: string, input: string, result: string, next: string, branch: Graph)
    | Parallel(name: string, branches: seq<Graph>, next: string)
    | Fail(name: string)
    | End(name: string)

  /** A state machine: its states by name and the name of the start state. */
  datatype Graph = Graph(states: map<string, State>, startAt: string)

  /** `GetState`: the state registered under `name`; None plays the role of Go's nil,
      which the run loop reads as "no next state". */
  function GetState(g: Graph, name: string): (r: Option<State>)
    ensures r.Some? <==> name in g.states
    ensures r.Some? ==> r.value == g.states[name]
  {
    if name in g.states then Some(g.states[name]) else None
  }

  /** What one attempt of a unit of work amounts to once the race against the
      attempt's scope is decided: it returned nil, it returned an error, or the scope
      expired (timed out or was cancelled) before it returned. */
  datatype AttemptOutcome = Success | Failure(err: Error) | Expired

  /** A unit of work: given the context and the zero-based attempt index, the context
      as the attempt leaves it and the attempt's outcome. */
  type Work = (Context, nat) -> (Context, AttemptOutcome)

  /** The caller-supplied code the graph refers to by name. */
  datatype Env = Env(work: string -> Work, modifier: string -> (Context -> Context))
}
