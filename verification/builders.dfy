/** The fluent builder: a map from names to states and a start name, filled by
    `StartAt` and the `Add*` calls and turned into a graph by `Build`, which checks
    only that the start name is registered. */
module Builders {
  import opened Wrappers
  import opened Seqs
  import opened Errors
  import opened States

  datatype Builder = Builder(states: map<string, State>, startAt: string)

  /** `NewStateMachineBuilder`: no states, so nothing can be built from it until a
      start name is set and registered. */
  function NewBuilder(): (b: Builder)
    ensures b.states == map[]
    ensures Build(b) == Err(StartNotFound(""))
  {
    Builder(map[], "")
  }

  /** `StartAt` overwrites the start name and leaves the states alone: the builder can
      then be built exactly when a state is registered under that name. */
  function StartAt(b: Builder, name: string): (r: Builder)
    ensures r.states == b.states
    ensures r.startAt == name
    ensures Build(r).Ok? <==> name in b.states
    ensures Build(r).Ok? ==> Build(r).value.startAt == name
  {
    b.(startAt := name)
  }

  /** `r` is `b` with `s` registered under `name`, replacing any earlier state of that
      name; every other registration and the start name are untouched. */
  ghost predicate Registers(b: Builder, r: Builder, name: string, s: State)
  {
    && r.startAt == b.startAt
    && OnlyKeyChanged(b.states, r.states, name)
    && r.states[name] == s
    && s.name == name
  }

  function Register(b: Builder, s: State): (r: Builder)
    ensures Registers(b, r, s.name, s)
  {
    b.(states := b.states[s.name := s])
  }

  /** The variadic options of `AddTask`, by their Go dynamic type. */
  datatype TaskOption =
    | RetryOption(retry: RetryRule)
    | CatchOption(catch: CatchRule)
    | IntOption(seconds: int)
    | BoolOption(flag: bool)
    | OtherOption

  /** One arm of the type switch of `AddTask`: a retry or catch rule is appended, an
      int sets the timeout, `true` marks the task terminal, anything else (including
      `false`) is ignored. */
  function ApplyOption(t: State, o: TaskOption): (r: State)
    requires t.Task?
    ensures r.Task? && r.name == t.name && r.work == t.work && r.next == t.next
  {
    match o
    case RetryOption(rule) => t.(retries := t.retries + [rule])
    case CatchOption(rule) => t.(catches := t.catches + [rule])
    case IntOption(n) => t.(timeoutSeconds := n)
    case BoolOption(flag) => if flag then t.(end := true) else t
    case OtherOption => t
  }

  /** The type switch of `AddTask`, applied to the options left to right. */
  function ApplyOptions(t: State, opts: seq<TaskOption>): (r: State)
    requires t.Task?
    ensures r.Task? && r.name == t.name && r.work == t.work && r.next == t.next
    decreases |opts|
  {
    if |opts| == 0 then t else ApplyOptions(ApplyOption(t, opts[0]), opts[1..])
  }

  /** The retry rules among the options, in the order given. */
  function RetriesOf(opts: seq<TaskOption>): seq<RetryRule>
  {
    if |opts| == 0 then []
    else (if opts[0].RetryOption? then [opts[0].retry] else []) + RetriesOf(opts[1..])
  }

  /** The catch rules among the options, in the order given. */
  function CatchesOf(opts: seq<TaskOption>): seq<CatchRule>
  {
    if |opts| == 0 then []
    else (if opts[0].CatchOption? then [opts[0].catch] else []) + CatchesOf(opts[1..])
  }

  /** The timeout the options set: the last int among them, if any. */
  function LastTimeout(opts: seq<TaskOption>): Option<int>
  {
    if |opts| == 0 then None
    else if opts[|opts| - 1].IntOption? then Some(opts[|opts| - 1].seconds)
    else LastTimeout(opts[..|opts| - 1])
  }

  /** Folding the options into a task appends, in order, exactly the retry and the
      catch rules among them; the last int wins as timeout; the task becomes terminal
      exactly when some option is `true` (or it already was). */
  lemma ApplyOptionsClassifies(t: State, opts: seq<TaskOption>)
    requires t.Task?
    ensures ApplyOptions(t, opts).retries == t.retries + RetriesOf(opts)
    ensures ApplyOptions(t, opts).catches == t.catches + CatchesOf(opts)
    ensures ApplyOptions(t, opts).timeoutSeconds == LastTimeout(opts).GetOr(t.timeoutSeconds)
    ensures ApplyOptions(t, opts).end <==> t.end || BoolOption(true) in opts
  {
    ApplyOptionsRetries(t, opts);
    ApplyOptionsCatches(t, opts);
    ApplyOptionsTimeout(t, opts);
    ApplyOptionsEnd(t, opts);
  }

  lemma {:induction false} ApplyOptionsRetries(t: State, opts: seq<TaskOption>)
    requires t.Task?
    ensures ApplyOptions(t, opts).retries == t.retries + RetriesOf(opts)
    decreases |opts|
  {
    if |opts| > 0 {
      var t' := ApplyOption(t, opts[0]);
      ApplyOptionsRetries(t', opts[1..]);
      assert t'.retries + RetriesOf(opts[1..]) == t.retries + RetriesOf(opts);
    }
  }

  lemma {:induction false} ApplyOptionsCatches(t: State, opts: seq<TaskOption>)
    requires t.Task?
    ensures ApplyOptions(t, opts).catches == t.catches + CatchesOf(opts)
    decreases |opts|
  {
    if |opts| > 0 {
      var t' := ApplyOption(t, opts[0]);
      ApplyOptionsCatches(t', opts[1..]);
      assert t'.catches + CatchesOf(opts[1..]) == t.catches + CatchesOf(opts);
    }
  }

  lemma {:induction false} ApplyOptionsTimeout(t: State, opts: seq<TaskOption>)
    requires t.Task?
    ensures ApplyOptions(t, opts).timeoutSeconds == LastTimeout(opts).GetOr(t.timeoutSeconds)
    decreases |opts|
  {
    if |opts| > 0 {
      ApplyOptionsTimeout(ApplyOption(t, opts[0]), opts[1..]);
      LastTimeoutCons(opts);
    }
  }

  lemma {:induction false} ApplyOptionsEnd(t: State, opts: seq<TaskOption>)
    requires t.Task?
    ensures ApplyOptions(t, opts).end <==> t.end || BoolOption(true) in opts
    decreases |opts|
  {
    if |opts| > 0 {
      ApplyOptionsEnd(ApplyOption(t, opts[0]), opts[1..]);
      assert opts == [opts[0]] + opts[1..];
    }
  }

  /** The last int of `o :: rest` is the last int of `rest`, or `o` when `rest` has none. */
  lemma {:induction false} LastTimeoutCons(opts: seq<TaskOption>)
    requires |opts| > 0
    ensures LastTimeout(opts) ==
      if LastTimeout(opts[1..]).Some? then LastTimeout(opts[1..])
      else if opts[0].IntOption? then Some(opts[0].seconds) else None
    decreases |opts|
  {
    if |opts| > 1 {
      var last := opts[|opts| - 1];
      if !last.IntOption? {
        LastTimeoutCons(opts[..|opts| - 1]);
        assert opts[..|opts| - 1][1..] == opts[1..][..|opts[1..]| - 1];
      }
    }
  }

  /** `AddTask`: registers a task running `work` with next state `next`, its options
      classified as ApplyOptionsClassifies states. */
  function AddTask(b: Builder, name: string, work: string, next: string, opts: seq<TaskOption>): (r: Builder)
    ensures name in r.states && r.states[name].Task?
    ensures var t := r.states[name];
      && Registers(b, r, name, t)
      && t.work == work && t.next == next
      && t.retries == RetriesOf(opts) && t.catches == CatchesOf(opts)
      && t.timeoutSeconds == LastTimeout(opts).GetOr(0)
      && (t.end <==> BoolOption(true) in opts)
  {
    var t := ApplyOptions(Task(name, work, next, [], [], false, 0), opts);
    ApplyOptionsClassifies(Task(name, work, next, [], [], false, 0), opts);
    Register(b, t)
  }

  function AddPass(b: Builder, name: string, next: string, modifier: Option<string>): (r: Builder)
    ensures Registers(b, r, name, Pass(name, next, modifier))
  {
    Register(b, Pass(name, next, modifier))
  }

  function AddMap(b: Builder, name: string, inputKey: string, resultKey: string, branch: Graph, next: string): (r: Builder)
    ensures Registers(b, r, name, Map(name, inputKey, resultKey, next, branch))
  {
    Register(b, Map(name, inputKey, resultKey, next, branch))
  }

  function AddChoice(b: Builder, name: string, choices: seq<ChoiceRule>, defaultState: string): (r: Builder)
    ensures Registers(b, r, name, Choice(name, choices, defaultState))
  {
    Register(b, Choice(name, choices, defaultState))
  }

  function AddWait(b: Builder, name: string, seconds: int, next: string): (r: Builder)
    ensures Registers(b, r, name, Wait(name, seconds, next))
  {
    Register(b, Wait(name, seconds, next))
  }

  function AddParallel(b: Builder, name: string, branches: seq<Graph>, next: string): (r: Builder)
    ensures Registers(b, r, name, Parallel(name, branches, next))
  {
    Register(b, Parallel(name, branches, next))
  }

  function AddFail(b: Builder, name: string): (r: Builder)
    ensures Registers(b, r, name, Fail(name))
  {
    Register(b, Fail(name))
  }

  function AddEnd(b: Builder, name: string): (r: Builder)
    ensures Registers(b, r, name, End(name))
  {
    Register(b, End(name))
  }

  function StartNotFound(name: string): Error
  {
    Plain("start state '" + name + "' not found")
  }

  /** `Build`: fails with "start state '<s>' not found" exactly when the start name is
      not registered; otherwise the graph of the registered states, whose start state
      (the machine's initial cursor) is the one registered under the start name. */
  function Build(b: Builder): (r: Result<Graph, Error>)
    ensures r.Ok? <==> b.startAt in b.states
    ensures r.Err? ==> r.error == StartNotFound(b.startAt)
    ensures r.Ok? ==> r.value.states == b.states && r.value.startAt == b.startAt
    ensures r.Ok? ==> GetState(r.value, r.value.startAt) == Some(b.states[b.startAt])
  {
    if b.startAt in b.states then Ok(Graph(b.states, b.startAt))
    else Err(StartNotFound(b.startAt))
  }

  /** `BuildOrDie`: Build, panicking on its error; callable exactly when Build succeeds. */
  function BuildOrDie(b: Builder): (g: Graph)
    requires b.startAt in b.states
    ensures Build(b) == Ok(g)
  {
    Build(b).value
  }
}
