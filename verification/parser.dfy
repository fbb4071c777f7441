/** Translation of a decoded workflow definition into a graph. Each state record is
    dispatched on its `Type`; Map iterators and Parallel branches are sub-machines,
    which admit only Task, Choice, Wait and End states and whose tasks get no retry
    or catch rules. Units of work are looked up by state name, so a translated Task
    refers to its work by its own name. The states are visited in Go's unspecified
    map order and the first bad one met is reported, so a rejected definition yields
    the set of errors any of which the source may report. */
module Parser {
  import opened Wrappers
  import opened Strings
  import opened Errors
  import opened States

  datatype RetryDef = RetryDef(errorEquals: seq<string>, intervalSeconds: int, maxAttempts: int)
  datatype CatchDef = CatchDef(errorEquals: seq<string>, next: string)
  datatype ChoiceDef = ChoiceDef(condition: map<string, Value>, next: string)

  /** One decoded state record: every field any variant reads, zero when absent from
      the document. */
  datatype StateDef = StateDef(
    typ: string,
    next: string,
    end: bool,
    retry: seq<RetryDef>,
    catch: seq<CatchDef>,
    timeoutSeconds: int,
    choices: seq<ChoiceDef>,
    defaultState: string,
    seconds: int,
    inputPath: string,
    resultPath: string,
    mapIterator: Definition,
    branches: seq<Definition>)

  /** A decoded definition: the start name and the state records by name. */
  datatype Definition = Definition(startAt: string, states: map<string, StateDef>)

  /** Outcome of a translation: the graph, or every error the source may report. */
  datatype Parsed = Parsed(graph: Graph) | Rejected(possible: set<Error>)

  const TopLevelTypes: set<string> := {"Task", "Pass", "Map", "Choice", "Wait", "Parallel", "End", "Fail"}
  const SubMachineTypes: set<string> := {"Task", "Choice", "Wait", "End"}

  const NanosPerSecond: int := 1_000_000_000

  /** The path prefix stripped from Map input and result paths. */
  const PathPrefix: string := "$."

  /** Go's `time.Duration` is a signed 64-bit count of nanoseconds: a product that
      leaves the range wraps around. */
  function WrapInt64(x: int): (r: int)
    ensures -0x8000_0000_0000_0000 <= r < 0x8000_0000_0000_0000
    ensures (r - x) % 0x1_0000_0000_0000_0000 == 0
    ensures -0x8000_0000_0000_0000 <= x < 0x8000_0000_0000_0000 ==> r == x
  {
    (x + 0x8000_0000_0000_0000) % 0x1_0000_0000_0000_0000 - 0x8000_0000_0000_0000
  }

  /** The type name a translated state was declared with. */
  function TypeName(s: State): string
  {
    match s
    case Task(_, _, _, _, _, _, _) => "Task"
    case Pass(_, _, _) => "Pass"
    case Choice(_, _, _) => "Choice"
    case Wait(_, _, _) => "Wait"
    case Map(_, _, _, _, _) => "Map"
    case Parallel(_, _, _) => "Parallel"
    case Fail(_) => "Fail"
    case End(_) => "End"
  }

  function ChoiceRules(defs: seq<ChoiceDef>): (rules: seq<ChoiceRule>)
    ensures |rules| == |defs|
    ensures forall i :: 0 <= i < |defs| ==> rules[i].condition == defs[i].condition && rules[i].next == defs[i].next
  {
    seq(|defs|, i requires 0 <= i < |defs| => ChoiceRule(defs[i].condition, defs[i].next))
  }

  /** Every retry and catch record names at least one error: the source reads
      `ErrorEquals[0]` and would panic on an empty list. */
  predicate ErrorListsNonEmpty(d: StateDef)
  {
    && (forall i :: 0 <= i < |d.retry| ==> |d.retry[i].errorEquals| > 0)
    && (forall i :: 0 <= i < |d.catch| ==> |d.catch[i].errorEquals| > 0)
  }

  /** Retry records become retry rules, in order, matching their first listed name
      only; the interval is converted from seconds to a Go duration. */
  function RetryRules(defs: seq<RetryDef>): (rules: seq<RetryRule>)
    requires forall i :: 0 <= i < |defs| ==> |defs[i].errorEquals| > 0
    ensures |rules| == |defs|
    ensures forall i :: 0 <= i < |defs| ==>
      && rules[i].errorName == defs[i].errorEquals[0]
      && rules[i].interval == WrapInt64(defs[i].intervalSeconds * NanosPerSecond)
      && rules[i].maxAttempts == defs[i].maxAttempts
  {
    seq(|defs|, i requires 0 <= i < |defs| =>
      RetryRule(defs[i].errorEquals[0], WrapInt64(defs[i].intervalSeconds * NanosPerSecond), defs[i].maxAttempts))
  }

  /** Catch records become catch rules, in order, matching their first listed name only. */
  function CatchRules(defs: seq<CatchDef>): (rules: seq<CatchRule>)
    requires forall i :: 0 <= i < |defs| ==> |defs[i].errorEquals| > 0
    ensures |rules| == |defs|
    ensures forall i :: 0 <= i < |defs| ==>
      rules[i].errorName == defs[i].errorEquals[0] && rules[i].nextState == defs[i].next
  {
    seq(|defs|, i requires 0 <= i < |defs| => CatchRule(defs[i].errorEquals[0], defs[i].next))
  }

  function UnknownSubStateType(typ: string, name: string): Error
  {
    Plain("unknown sub-state type '" + typ + "' for state '" + name + "'")
  }

  function UnknownStateType(typ: string, name: string): Error
  {
    Plain("unknown state type '" + typ + "' for state '" + name + "'")
  }

  function MapIteratorPrefix(name: string): string
  {
    "could not parse Map iterator for state '" + name + "': "
  }

  const ParallelBranchPrefix: string := "could not parse Parallel branch: "

  /** A sub-machine definition is accepted when all its records have admitted types. */
  predicate SubMachineAccepts(def: Definition)
  {
    forall n :: n in def.states ==> def.states[n].typ in SubMachineTypes
  }

  /** `e` is the error a sub-machine reports for one of its records of a foreign type. */
  predicate SubRejects(def: Definition, e: Error)
  {
    exists n :: n in def.states && def.states[n].typ !in SubMachineTypes
                && e == UnknownSubStateType(def.states[n].typ, n)
  }

  /** Branch `i` is the first branch that is not accepted. */
  predicate FirstRejectedBranch(defs: seq<Definition>, i: int)
  {
    && 0 <= i < |defs|
    && !SubMachineAccepts(defs[i])
    && forall j :: 0 <= j < i ==> SubMachineAccepts(defs[j])
  }

  /** Behind an accepted branch, the first rejected branch of the rest is the first
      rejected branch of all, one position on. */
  lemma FirstRejectedBranchShift(defs: seq<Definition>, i: int)
    requires |defs| > 0 && SubMachineAccepts(defs[0]) && FirstRejectedBranch(defs[1..], i)
    ensures FirstRejectedBranch(defs, i + 1) && defs[i + 1] == defs[1..][i]
  {
    forall j | 0 <= j < i + 1
      ensures SubMachineAccepts(defs[j])
    {
      if j > 0 {
        assert defs[j] == defs[1..][j - 1];
      }
    }
  }

  /** A top-level record is accepted when its type is known and the sub-machines it
      holds are accepted. */
  predicate Accepts(d: StateDef)
  {
    && d.typ in TopLevelTypes
    && (d.typ == "Map" ==> SubMachineAccepts(d.mapIterator))
    && (d.typ == "Parallel" ==> forall i :: 0 <= i < |d.branches| ==> SubMachineAccepts(d.branches[i]))
  }

  /** `e` is an error the source may report for the record `d` named `name`. */
  predicate StateRejects(name: string, d: StateDef, e: Error)
  {
    if d.typ == "Map" then
      e.Wrapped? && e.prefix == MapIteratorPrefix(name) && SubRejects(d.mapIterator, e.inner)
    else if d.typ == "Parallel" then
      && e.Wrapped? && e.prefix == ParallelBranchPrefix
      && exists i :: 0 <= i < |d.branches| && FirstRejectedBranch(d.branches, i) && SubRejects(d.branches[i], e.inner)
    else
      d.typ !in TopLevelTypes && e == UnknownStateType(d.typ, name)
  }

  /** An error reported for a record means the record is not accepted. */
  lemma RejectionMeansNotAccepted(name: string, d: StateDef, e: Error)
    requires StateRejects(name, d, e)
    ensures !Accepts(d)
  {
    if d.typ == "Map" {
      var n :| n in d.mapIterator.states && d.mapIterator.states[n].typ !in SubMachineTypes
               && e.inner == UnknownSubStateType(d.mapIterator.states[n].typ, n);
    }
  }

  /** The records of a sub-machine hold no retry or catch rules and no nested fan-out. */
  predicate Flat(g: Graph)
  {
    forall n :: n in g.states ==>
      var s := g.states[n];
      && (s.Task? || s.Choice? || s.Wait? || s.End?)
      && (s.Task? ==> s.retries == [] && s.catches == [])
  }

  /** One record of a sub-machine, whose type is one of the four admitted there. */
  function TranslateSubState(name: string, d: StateDef): (s: State)
    requires d.typ in SubMachineTypes
    ensures s.name == name && TypeName(s) == d.typ
    ensures s.Task? ==> && s.work == name && s.next == d.next && s.end == d.end
                        && s.timeoutSeconds == d.timeoutSeconds
                        && s.retries == [] && s.catches == []
    ensures s.Choice? ==> s.choices == ChoiceRules(d.choices) && s.defaultState == d.defaultState
    ensures s.Wait? ==> s.seconds == d.seconds && s.next == d.next
  {
    if d.typ == "Task" then Task(name, name, d.next, [], [], d.end, d.timeoutSeconds)
    else if d.typ == "Choice" then Choice(name, ChoiceRules(d.choices), d.defaultState)
    else if d.typ == "Wait" then Wait(name, d.seconds, d.next)
    else End(name)
  }

  /** `parseSubMachine`: rejects a definition holding a record whose type is not
      admitted in a sub-machine, reporting any one such record; otherwise translates
      every record under its own name, keeping its next state, terminal flag, timeout,
      choice rules, default and wait, and copies the start name. */
  function ParseSubMachine(def: Definition): (r: Parsed)
    ensures r.Parsed? <==> SubMachineAccepts(def)
    ensures r.Parsed? ==>
      && r.graph.startAt == def.startAt
      && r.graph.states.Keys == def.states.Keys
      && Flat(r.graph)
      && forall n :: n in r.graph.states ==>
           var s := r.graph.states[n];
           && s.name == n && TypeName(s) == def.states[n].typ
           && (s.Task? ==> s.work == n)
           && s == TranslateSubState(n, def.states[n])
    ensures r.Rejected? ==> r.possible != {} && forall e :: e in r.possible <==> SubRejects(def, e)
  {
    if forall n :: n in def.states ==> def.states[n].typ in SubMachineTypes then
      Parsed(Graph(map n | n in def.states :: TranslateSubState(n, def.states[n]), def.startAt))
    else
      var errs := set n | n in def.states && def.states[n].typ !in SubMachineTypes
                        :: UnknownSubStateType(def.states[n].typ, n);
      assert errs != {} by {
        var n :| n in def.states && def.states[n].typ !in SubMachineTypes;
        assert UnknownSubStateType(def.states[n].typ, n) in errs;
      }
      Rejected(errs)
  }

  /** The Parallel branches, translated in order; the first rejected branch decides. */
  function ParseBranches(defs: seq<Definition>): (r: Result<seq<Graph>, set<Error>>)
    ensures r.Ok? <==> forall i :: 0 <= i < |defs| ==> SubMachineAccepts(defs[i])
    ensures r.Ok? ==> |r.value| == |defs| && forall i :: 0 <= i < |defs| ==> r.value[i] == ParseSubMachine(defs[i]).graph
    ensures r.Err? ==> exists i :: FirstRejectedBranch(defs, i) && ParseSubMachine(defs[i]) == Rejected(r.error)
  {
    if |defs| == 0 then Ok([])
    else
      match ParseSubMachine(defs[0])
      case Rejected(es) => Err(es)
      case Parsed(g) =>
        match ParseBranches(defs[1..])
        case Err(es) =>
          assert exists i :: FirstRejectedBranch(defs, i) && ParseSubMachine(defs[i]) == Rejected(es) by {
            var i :| FirstRejectedBranch(defs[1..], i) && ParseSubMachine(defs[1..][i]) == Rejected(es);
            FirstRejectedBranchShift(defs, i);
          }
          Err(es)
        case Ok(gs) => Ok([g] + gs)
  }

  function WrapAll(prefix: string, es: set<Error>): (r: set<Error>)
    ensures forall e :: e in r <==> e.Wrapped? && e.prefix == prefix && e.inner in es
  {
    set x | x in es :: Wrapped(prefix, x)
  }

  /** One top-level record, dispatched on its type: accepted exactly when its type is
      known and its sub-machines are accepted, in which case the state carries the
      record's name and type; otherwise the errors the source may report for it. */
  function TranslateState(name: string, d: StateDef): (r: Result<State, set<Error>>)
    requires d.typ == "Task" ==> ErrorListsNonEmpty(d)
    ensures r.Ok? <==> Accepts(d)
    ensures r.Ok? ==> r.value.name == name && TypeName(r.value) == d.typ
    ensures r.Err? ==> r.error != {} && forall e :: e in r.error <==> StateRejects(name, d, e)
  {
    if d.typ == "Task" then
      Ok(Task(name, name, d.next, RetryRules(d.retry), CatchRules(d.catch), d.end, d.timeoutSeconds))
    else if d.typ == "Pass" then Ok(Pass(name, d.next, None))
    else if d.typ == "Map" then
      match ParseSubMachine(d.mapIterator)
      case Rejected(es) => Err(WrapAll(MapIteratorPrefix(name), es))
      case Parsed(g) =>
        Ok(Map(name, TrimPrefix(d.inputPath, PathPrefix), TrimPrefix(d.resultPath, PathPrefix), d.next, g))
    else if d.typ == "Choice" then Ok(Choice(name, ChoiceRules(d.choices), d.defaultState))
    else if d.typ == "Wait" then Ok(Wait(name, d.seconds, d.next))
    else if d.typ == "Parallel" then
      match ParseBranches(d.branches)
      case Err(es) => Err(WrapAll(ParallelBranchPrefix, es))
      case Ok(gs) => Ok(Parallel(name, gs, d.next))
    else if d.typ == "End" then Ok(End(name))
    else if d.typ == "Fail" then Ok(Fail(name))
    else Err({UnknownStateType(d.typ, name)})
  }

  /** What the source requires of a definition so as not to panic while translating it. */
  predicate Translatable(def: Definition)
  {
    forall n :: n in def.states && def.states[n].typ == "Task" ==> ErrorListsNonEmpty(def.states[n])
  }

  /** `ParseStateMachine` from the decoded definition on: accepted exactly when every
      record is; the graph then holds one state per record, under the record's name
      and with its type, and the start name is copied without checking that it is
      registered. A rejected definition may be reported through any bad record. */
  function ParseStateMachine(def: Definition): (r: Parsed)
    requires Translatable(def)
    ensures r.Parsed? <==> forall n :: n in def.states ==> Accepts(def.states[n])
    ensures r.Parsed? ==>
      && r.graph.startAt == def.startAt
      && r.graph.states.Keys == def.states.Keys
      && forall n :: n in def.states ==> r.graph.states[n] == TranslateState(n, def.states[n]).value
    ensures r.Rejected? ==>
      && r.possible != {}
      && forall e :: e in r.possible <==> exists n :: n in def.states && StateRejects(n, def.states[n], e)
  {
    if forall n :: n in def.states ==> TranslateState(n, def.states[n]).Ok? then
      Parsed(Graph(map n | n in def.states :: TranslateState(n, def.states[n]).value, def.startAt))
    else
      var errs := set n, e | n in def.states && TranslateState(n, def.states[n]).Err?
                             && e in TranslateState(n, def.states[n]).error :: e;
      assert errs != {} by {
        var n :| n in def.states && TranslateState(n, def.states[n]).Err?;
        var e :| e in TranslateState(n, def.states[n]).error;
        assert e in errs;
      }
      assert forall e :: e in errs <==> exists n :: n in def.states && StateRejects(n, def.states[n], e) by {
        forall e, n | n in def.states && StateRejects(n, def.states[n], e)
          ensures e in errs
        {
          RejectionMeansNotAccepted(n, def.states[n], e);
          assert e in TranslateState(n, def.states[n]).error;
        }
      }
      Rejected(errs)
  }

  /** What a translated definition looks like, record by record: every state is named
      after its key and has the record's type; a Task runs the work registered under
      its own name and keeps its next state, terminal flag, timeout and the number of
      its rules; a Pass has no modifier; a Map reads and writes the record's paths
      without the "$." prefix; and the iterator and every Parallel branch are the
      flat sub-machines `ParseSubMachine` makes of the definitions given for them. */
  lemma ParsedGraphShape(def: Definition)
    requires Translatable(def) && ParseStateMachine(def).Parsed?
    ensures var g := ParseStateMachine(def).graph;
      forall n :: n in g.states ==> StateShape(n, def.states[n], g.states[n])
  {
    var g := ParseStateMachine(def).graph;
    forall n | n in g.states
      ensures StateShape(n, def.states[n], g.states[n])
    {
      TranslatedStateShape(n, def.states[n]);
    }
  }

  /** The fields a translated state takes from its record. */
  predicate StateShape(n: string, d: StateDef, s: State)
    requires d.typ == "Task" ==> ErrorListsNonEmpty(d)
  {
    && s.name == n && TypeName(s) == d.typ
    && (s.Task? ==> && s.work == n && s.next == d.next && s.end == d.end
                    && s.timeoutSeconds == d.timeoutSeconds
                    && s.retries == RetryRules(d.retry) && s.catches == CatchRules(d.catch))
    && (s.Pass? ==> s.modifier.None? && s.next == d.next)
    && (s.Choice? ==> s.choices == ChoiceRules(d.choices) && s.defaultState == d.defaultState)
    && (s.Wait? ==> s.seconds == d.seconds && s.next == d.next)
    && ((s.Map? || s.Parallel?) ==> s.next == d.next)
    && (s.Map? ==> && s.input == TrimPrefix(d.inputPath, PathPrefix)
                   && s.result == TrimPrefix(d.resultPath, PathPrefix)
                   && ParseSubMachine(d.mapIterator) == Parsed(s.branch)
                   && Flat(s.branch) && s.branch.startAt == d.mapIterator.startAt)
    && (s.Parallel? ==> && |s.branches| == |d.branches|
                        && forall i :: 0 <= i < |d.branches| ==>
                             && ParseSubMachine(d.branches[i]) == Parsed(s.branches[i])
                             && Flat(s.branches[i]) && s.branches[i].startAt == d.branches[i].startAt)
  }

  /** One accepted record translates to a state of that shape. */
  lemma TranslatedStateShape(n: string, d: StateDef)
    requires d.typ == "Task" ==> ErrorListsNonEmpty(d)
    requires TranslateState(n, d).Ok?
    ensures StateShape(n, d, TranslateState(n, d).value)
  {
    var s := TranslateState(n, d).value;
    if s.Parallel? {
      assert d.typ == "Parallel";
      assert s.branches == ParseBranches(d.branches).value;
    }
  }
}
