/** The termination test of a loop: `LoopItem.evaluate_condition` and the part of
    `LoopItem.end` that combines the conditions. */
module LoopConditions {
  import opened Wrappers
  import opened Values

  datatype Condition = Condition(variable: string, operator: string, mode: string)

  /** What reading one condition's variable and value gave. */
  datatype Reading = Unreadable | Reading(variable: Val, value: Val)

  /** `Abort` stands for an exception: it leaves the whole run. */
  datatype Verdict = Stop | Go | Abort

  /** One condition. `None` is a raised exception. The boolean case of the source comes after the
      numeric one, and a boolean is a number there, so it is never reached. */
  function EvaluateCondition(v: Val, operator: string, value: Val): Option<bool> {
    match v
    case Str(s) => OnString(s, operator, value)
    case Num(_) => OnNumber(v, operator, value)
    case Bool(_) => OnNumber(v, operator, value)
    case Dict(size, _) =>
      if operator == "empty" then Some(size == 0)
      else if operator == "not empty" then Some(size > 0)
      else None
    case List(items) => OnList(items, operator, value)
    case Null => Some(operator == "empty")
  }

  function OnString(s: string, operator: string, value: Val): Option<bool> {
    if operator == "is" then Some(value == Str(s))
    else if operator == "is not" then Some(value != Str(s))
    else if operator == "empty" then Some(s == "")
    else if operator == "not empty" then Some(s != "")
    else if !value.Str? then None
    else if operator == "contains" then Some(Occurs(value.s, s))
    else if operator == "not contains" then Some(!Occurs(value.s, s))
    else if operator == "start with" then Some(StartsWith(s, value.s))
    else if operator == "end with" then Some(EndsWith(s, value.s))
    else None
  }

  function OnNumber(v: Val, operator: string, value: Val): Option<bool>
    requires Numeric(v)
  {
    if operator == "=" then Some(Same(v, value))
    else if operator == "≠" then Some(!Same(v, value))
    else if operator == "empty" then Some(false)
    else if operator == "not empty" then Some(true)
    else if !Numeric(value) then None
    else if operator == ">" then Some(Number(v) > Number(value))
    else if operator == "<" then Some(Number(v) < Number(value))
    else if operator == "≥" then Some(Number(v) >= Number(value))
    else if operator == "≤" then Some(Number(v) <= Number(value))
    else None
  }

  function OnList(items: seq<Val>, operator: string, value: Val): Option<bool> {
    if operator == "contains" then Some(exists i | 0 <= i < |items| :: Same(items[i], value))
    else if operator == "not contains" then Some(!exists i | 0 <= i < |items| :: Same(items[i], value))
    else if operator == "is" then Some(Same(List(items), value))
    else if operator == "is not" then Some(!Same(List(items), value))
    else if operator == "empty" then Some(items == [])
    else if operator == "not empty" then Some(items != [])
    else None
  }

  /** One entry of the condition list, with its completeness and input-mode checks. */
  function Check(c: Condition, reading: Reading): Option<bool> {
    if c.variable == "" || c.operator == "" then None
    else if c.mode != "variable" && c.mode != "constant" then None
    else match reading
      case Unreadable => None
      case Reading(v, value) => EvaluateCondition(v, c.operator, value)
  }

  function ReadingAt(readings: seq<Reading>, i: nat): Reading {
    if i < |readings| then readings[i] else Unreadable
  }

  /** The meaning of the list: every entry must evaluate, and then `and` needs all of them,
      `or` needs one of them. */
  ghost predicate Evaluates(conditions: seq<Condition>, readings: seq<Reading>) {
    forall i | 0 <= i < |conditions| :: Check(conditions[i], ReadingAt(readings, i)).Some?
  }

  ghost predicate Met(conditions: seq<Condition>, readings: seq<Reading>, i: nat) {
    i < |conditions| && Check(conditions[i], ReadingAt(readings, i)) == Some(true)
  }

  /** The list of results that `end` builds; `None` when building it raises. */
  function Results(conditions: seq<Condition>, readings: seq<Reading>): (r: Option<seq<bool>>)
    ensures r.Some? <==> Evaluates(conditions, readings)
    ensures r.Some? ==> |r.value| == |conditions|
    ensures r.Some? ==> forall i | 0 <= i < |conditions| :: r.value[i] == Met(conditions, readings, i)
  {
    if conditions == [] then Some([])
    else
      var n := |conditions| - 1;
      assert forall i | 0 <= i < n :: conditions[..n][i] == conditions[i];
      match Results(conditions[..n], readings)
      case None => None
      case Some(before) =>
        assert forall i | 0 <= i < n :: Met(conditions[..n], readings, i) == Met(conditions, readings, i);
        match Check(conditions[n], ReadingAt(readings, n))
        case None => None
        case Some(b) => Some(before + [b])
  }

  function VerdictOf(conditions: seq<Condition>, logic: string, readings: seq<Reading>): Verdict {
    match Results(conditions, readings)
    case None => Abort
    case Some(bs) =>
      if logic == "and" then if forall i | 0 <= i < |bs| :: bs[i] then Stop else Go
      else if logic == "or" then if exists i | 0 <= i < |bs| :: bs[i] then Stop else Go
      else Abort
  }

  /** The test as the source runs it: a loop over the conditions that collects their results. */
  method Decide(conditions: seq<Condition>, logic: string, readings: seq<Reading>) returns (verdict: Verdict)
    ensures verdict == VerdictOf(conditions, logic, readings)
    ensures verdict == Abort <==>
      !Evaluates(conditions, readings) || (logic != "and" && logic != "or")
    ensures verdict == Stop && logic == "and" ==> forall i | 0 <= i < |conditions| :: Met(conditions, readings, i)
    ensures verdict == Stop && logic == "or" ==> exists i | 0 <= i < |conditions| :: Met(conditions, readings, i)
    ensures verdict == Go && logic == "and" ==> exists i | 0 <= i < |conditions| :: !Met(conditions, readings, i)
    ensures verdict == Go && logic == "or" ==> forall i | 0 <= i < |conditions| :: !Met(conditions, readings, i)
  {
    var every, some := true, false;
    for i := 0 to |conditions|
      invariant forall j | 0 <= j < i :: Check(conditions[j], ReadingAt(readings, j)).Some?
      invariant every <==> forall j | 0 <= j < i :: Met(conditions, readings, j)
      invariant some <==> exists j | 0 <= j < i :: Met(conditions, readings, j)
    {
      var b := Check(conditions[i], ReadingAt(readings, i));
      if b.None? {
        return Abort;
      }
      assert Met(conditions, readings, i) == b.value;
      every, some := every && b.value, some || b.value;
    }
    ghost var bs := Results(conditions, readings).value;
    assert every <==> forall i | 0 <= i < |bs| :: bs[i];
    assert some <==> exists i | 0 <= i < |bs| :: bs[i];
    verdict := if logic == "and" then if every then Stop else Go
               else if logic == "or" then if some then Stop else Go
               else Abort;
  }

  /** With no condition, `and` ends the loop at once and `or` never ends it. */
  lemma EmptyList(readings: seq<Reading>)
    ensures VerdictOf([], "and", readings) == Stop
    ensures VerdictOf([], "or", readings) == Go
  {
    assert Results([], readings) == Some([]);
  }

  /** A boolean variable cannot be compared with `is` or `is not`, although the source has a branch
      for it: exactly the numeric operators work, and the ordering ones only against a number. */
  lemma BooleanOperators(b: bool, operator: string, value: Val)
    ensures EvaluateCondition(Bool(b), operator, value).Some? <==>
      operator in {"=", "≠", "empty", "not empty"} || (operator in {">", "<", "≥", "≤"} && Numeric(value))
    ensures EvaluateCondition(Bool(b), "is", value).None? && EvaluateCondition(Bool(b), "is not", value).None?
  {
    assert EvaluateCondition(Bool(b), "is", value) == OnNumber(Bool(b), "is", value);
    assert EvaluateCondition(Bool(b), "is not", value) == OnNumber(Bool(b), "is not", value);
  }

}
