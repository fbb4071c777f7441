/** Choice states: each rule's condition resolves one operand from the context and
    compares it with one of three typed equality operators; the first satisfied rule
    selects the next state and otherwise the default does. */
module Choices {
  import opened Wrappers
  import opened Seqs
  import opened Strings
  import opened States

  /** The key read when a condition has no string `InputPath`. */
  const ImplicitKey: string := "choice_value"

  datatype Operator = StringEquals | NumericEquals | BooleanEquals

  function OperatorKey(op: Operator): string
  {
    match op
    case StringEquals => "StringEquals"
    case NumericEquals => "NumericEquals"
    case BooleanEquals => "BooleanEquals"
  }

  /** Whether a value has the Go type an operator's type assertion expects
      (`string`, `float64`, `bool`). */
  predicate HasOperandType(op: Operator, v: Value)
  {
    match op
    case StringEquals => v.Str?
    case NumericEquals => v.Float?
    case BooleanEquals => v.Bool?
  }

  /** One operator applied to the expected value (from the condition) and the
      resolved operand, as the type-asserting switch arm computes it. */
  predicate Compare(op: Operator, expected: Value, actual: Value)
  {
    match op
    case StringEquals => expected.Str? && actual.Str? && actual.s == expected.s
    case NumericEquals => expected.Float? && actual.Float? && actual.x == expected.x
    case BooleanEquals => expected.Bool? && actual.Bool? && actual.b == expected.b
  }

  /** The typed equality operators hold exactly when both sides have the operator's
      type and are equal; any type mismatch makes them false. */
  lemma CompareIsTypedEquality(op: Operator, expected: Value, actual: Value)
    ensures Compare(op, expected, actual) <==>
      HasOperandType(op, expected) && HasOperandType(op, actual) && expected == actual
  {
  }

  /** The context key a condition reads: its `InputPath` without a leading `$.` when
      that entry is a string, the fixed implicit key otherwise. */
  function OperandKey(cond: map<string, Value>): (k: string)
    ensures "InputPath" in cond && cond["InputPath"].Str? ==>
      k == TrimPrefix(cond["InputPath"].s, "$.")
    ensures !("InputPath" in cond && cond["InputPath"].Str?) ==> k == ImplicitKey
  {
    if "InputPath" in cond && cond["InputPath"].Str? then TrimPrefix(cond["InputPath"].s, "$.")
    else ImplicitKey
  }

  /** The operator keys a condition carries, in the model's fixed priority order. */
  function PresentOperators(cond: map<string, Value>): (ops: seq<Operator>)
    ensures forall op :: op in ops <==> OperatorKey(op) in cond
  {
    (if "StringEquals" in cond then [StringEquals] else [])
    + (if "NumericEquals" in cond then [NumericEquals] else [])
    + (if "BooleanEquals" in cond then [BooleanEquals] else [])
  }

  /** `evaluateCondition`. The operand must be present; then the operator key decides.
      Go visits the condition's keys in an unspecified order and the first operator key
      met decides, so a condition with several operator keys is nondeterministic
      there; this model lets the first key in `PresentOperators` decide (see
      EvaluationIsAPossibleVerdict). */
  function EvaluateCondition(cond: map<string, Value>, data: Context): bool
  {
    var key := OperandKey(cond);
    if key !in data then false
    else
      var ops := PresentOperators(cond);
      if |ops| == 0 then false
      else Compare(ops[0], cond[OperatorKey(ops[0])], data[key])
  }

  /** Every verdict some visiting order of the condition's keys could produce. */
  function PossibleVerdicts(cond: map<string, Value>, data: Context): set<bool>
  {
    var key := OperandKey(cond);
    if key !in data then {false}
    else if |PresentOperators(cond)| == 0 then {false}
    else set op | op in PresentOperators(cond) :: Compare(op, cond[OperatorKey(op)], data[key])
  }

  /** The model's verdict is one Go can produce, and when the condition names at most
      one operator it is the only one. */
  lemma EvaluationIsAPossibleVerdict(cond: map<string, Value>, data: Context)
    ensures EvaluateCondition(cond, data) in PossibleVerdicts(cond, data)
    ensures |PresentOperators(cond)| <= 1 ==>
      PossibleVerdicts(cond, data) == {EvaluateCondition(cond, data)}
  {
    var key := OperandKey(cond);
    var ops := PresentOperators(cond);
    if key in data && |ops| == 1 {
      forall v | v in PossibleVerdicts(cond, data)
        ensures v == EvaluateCondition(cond, data)
      {
        var op :| op in ops && v == Compare(op, cond[OperatorKey(op)], data[key]);
        assert op == ops[0];
      }
    }
  }

  /** A condition is false when its operand key is absent, and false when it names no
      operator; with one operator present it is that operator's typed comparison. */
  lemma ConditionCases(cond: map<string, Value>, data: Context, op: Operator)
    ensures OperandKey(cond) !in data ==> !EvaluateCondition(cond, data)
    ensures PresentOperators(cond) == [] ==> !EvaluateCondition(cond, data)
    ensures PresentOperators(cond) == [op] && OperandKey(cond) in data ==>
      (EvaluateCondition(cond, data) <==>
        HasOperandType(op, cond[OperatorKey(op)]) && HasOperandType(op, data[OperandKey(cond)])
        && cond[OperatorKey(op)] == data[OperandKey(cond)])
  {
  }

  /** The transition a Choice state takes: the target of the first satisfied rule in
      declaration order, or the default when no rule is satisfied. */
  function SelectNext(rules: seq<ChoiceRule>, defaultState: string, data: Context): (r: string)
    ensures (forall j :: 0 <= j < |rules| ==> !EvaluateCondition(rules[j].condition, data)) ==>
      r == defaultState
    ensures forall i ::
              (0 <= i < |rules| && EvaluateCondition(rules[i].condition, data)
               && (forall j :: 0 <= j < i ==> !EvaluateCondition(rules[j].condition, data)))
              ==> r == rules[i].next
  {
    match FirstIndex(rules, (rule: ChoiceRule) => EvaluateCondition(rule.condition, data))
    case Some(i) => rules[i].next
    case None => defaultState
  }
}
