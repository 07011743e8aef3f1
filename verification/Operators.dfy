/** What the operators of a loop condition mean, and what that makes of a loop that counts. */
module Operators {
  import opened Wrappers
  import opened Values
  import opened LoopConditions
  import opened Components
  import opened Scheduler
  import opened Unrolling
  import opened Loops

  // ----- numbers -----

  /** A number compared with another one: what counts is the difference. */
  lemma NumbersCompare(b: real, d: real)
    ensures EvaluateCondition(Num(b + d), ">", Num(b)) == Some(d > 0.0)
    ensures EvaluateCondition(Num(b + d), "≥", Num(b)) == Some(d >= 0.0)
    ensures EvaluateCondition(Num(b + d), "<", Num(b)) == Some(d < 0.0)
    ensures EvaluateCondition(Num(b + d), "≤", Num(b)) == Some(d <= 0.0)
    ensures EvaluateCondition(Num(b + d), "=", Num(b)) == Some(d == 0.0)
    ensures EvaluateCondition(Num(b + d), "≠", Num(b)) == Some(d != 0.0)
  {
    assert b + d > b <==> d > 0.0;
    Signs();
  }

  lemma Signs()
    ensures ">" != "<" && ">" != "≥" && ">" != "≤" && ">" != "=" && ">" != "≠" && "<" != "≥" && "<" != "≤"
    ensures "<" != "=" && "<" != "≠" && "≥" != "≤" && "≥" != "=" && "≥" != "≠"
    ensures "≤" != "=" && "≤" != "≠" && "=" != "≠"
    ensures ">" != "empty" && "<" != "empty" && "≥" != "empty" && "≤" != "empty" && "=" != "empty" && "≠" != "empty"
    ensures ">" != "not empty" && "<" != "not empty" && "≥" != "not empty" && "≤" != "not empty"
    ensures "=" != "not empty" && "≠" != "not empty"
  {
    assert ">"[0] == '>' && "<"[0] == '<' && "≥"[0] == '≥' && "≤"[0] == '≤' && "="[0] == '=' && "≠"[0] == '≠';
    assert |"empty"| == 5 && |"not empty"| == 9;
  }

  /** A boolean counts as the number one or zero, on either side. */
  lemma BooleansCount(b: bool, operator: string, value: Val)
    ensures var n := Num(if b then 1.0 else 0.0);
      && EvaluateCondition(Bool(b), operator, value) == EvaluateCondition(n, operator, value)
      && (Numeric(value) ==> EvaluateCondition(value, operator, Bool(b)) == EvaluateCondition(value, operator, n))
  {
  }

  /** A number is never empty, and can be ordered only against a number. */
  lemma NumbersElse(a: real, value: Val)
    ensures EvaluateCondition(Num(a), "empty", value) == Some(false)
    ensures EvaluateCondition(Num(a), "not empty", value) == Some(true)
    ensures !Numeric(value) ==> forall op | op in {">", "<", "≥", "≤"} :: EvaluateCondition(Num(a), op, value) == None
    ensures !Numeric(value) ==> EvaluateCondition(Num(a), "=", value) == Some(false)
    ensures !Numeric(value) ==> EvaluateCondition(Num(a), "≠", value) == Some(true)
    ensures forall op | op !in {">", "<", "≥", "≤", "=", "≠", "empty", "not empty"} ::
              EvaluateCondition(Num(a), op, value) == None
  {
    Signs();
  }

  // ----- strings -----

  lemma Words()
    ensures "contains" != "not contains" && "contains" != "start with" && "contains" != "end with"
    ensures "not contains" != "start with" && "not contains" != "end with" && "start with" != "end with"
    ensures "contains" != "is" && "contains" != "is not" && "contains" != "empty" && "contains" != "not empty"
    ensures "not contains" != "is" && "not contains" != "is not" && "not contains" != "empty"
    ensures "start with" != "is" && "start with" != "is not" && "start with" != "empty" && "start with" != "not empty"
    ensures "end with" != "is" && "end with" != "is not" && "end with" != "empty" && "end with" != "not empty"
    ensures "not contains" != "not empty"
    ensures "is" != "is not" && "is" != "empty" && "is" != "not empty" && "is not" != "empty"
    ensures "is not" != "not empty" && "empty" != "not empty"
  {
    assert |"contains"| == 8 && |"not contains"| == 12 && |"start with"| == 10 && |"end with"| == 8;
    assert |"is"| == 2 && |"is not"| == 6 && |"empty"| == 5 && |"not empty"| == 9;
    assert "contains"[0] == 'c' && "end with"[0] == 'e';
  }

  /** A text contains, starts or ends with another one exactly when it is made up that way. */
  lemma StringsMatch(s: string, t: string)
    ensures EvaluateCondition(Str(s), "contains", Str(t)) == Some(true) <==> exists x, y :: s == Around(x, t, y)
    ensures EvaluateCondition(Str(s), "start with", Str(t)) == Some(true) <==> exists y :: s == Around("", t, y)
    ensures EvaluateCondition(Str(s), "end with", Str(t)) == Some(true) <==> exists x :: s == Around(x, t, "")
    ensures EvaluateCondition(Str(s), "is", Str(t)) == Some(s == t)
  {
    Words();
    hide Around;
    ContainsMeans(s, t);
    StartsMeans(s, t);
    EndsMeans(s, t);
  }

  function Around(x: string, t: string, y: string): string {
    x + t + y
  }

  lemma ContainsMeans(s: string, t: string)
    ensures Occurs(t, s) <==> exists x, y :: s == Around(x, t, y)
  {
    if Occurs(t, s) {
      var i :| 0 <= i <= |s| && OccursAt(t, s, i);
      assert s == Around(s[..i], t, s[i + |t|..]);
    }
    forall x, y | s == Around(x, t, y) ensures Occurs(t, s) {
      assert OccursAt(t, s, |x|);
    }
  }

  lemma StartsMeans(s: string, t: string)
    ensures StartsWith(s, t) <==> exists y :: s == Around("", t, y)
  {
    if StartsWith(s, t) {
      assert s == Around("", t, s[|t|..]);
    }
  }

  lemma EndsMeans(s: string, t: string)
    ensures EndsWith(s, t) <==> exists x :: s == Around(x, t, "")
  {
    if EndsWith(s, t) {
      assert s == Around(s[..|s| - |t|], t, "");
    }
    forall x | s == Around(x, t, "") ensures EndsWith(s, t) {
      assert s[|s| - |t|..] == t;
    }
  }

  /** Matching needs a text to match with; comparing and asking for emptiness do not. */
  lemma StringsElse(s: string, value: Val)
    ensures EvaluateCondition(Str(s), "empty", value) == Some(s == "")
    ensures EvaluateCondition(Str(s), "not empty", value) == Some(s != "")
    ensures !value.Str? ==> EvaluateCondition(Str(s), "is", value) == Some(false)
    ensures !value.Str? ==> forall op | op in {"contains", "not contains", "start with", "end with"} ::
              EvaluateCondition(Str(s), op, value) == None
    ensures forall op |
              op !in {"contains", "not contains", "start with", "end with", "is", "is not", "empty", "not empty"} ::
              EvaluateCondition(Str(s), op, value) == None
  {
    Words();
  }

  // ----- negation -----

  predicate Complement(a: Option<bool>, b: Option<bool>) {
    a.Some? == b.Some? && (a.Some? ==> a.value == !b.value)
  }

  /** Each negated operator is the complement of the other, and raises when that does, for every
      variable that is not missing. */
  lemma NegationsComplement(v: Val, value: Val)
    requires !v.Null?
    ensures Complement(EvaluateCondition(v, "contains", value), EvaluateCondition(v, "not contains", value))
    ensures Complement(EvaluateCondition(v, "is", value), EvaluateCondition(v, "is not", value))
    ensures Complement(EvaluateCondition(v, "empty", value), EvaluateCondition(v, "not empty", value))
    ensures Complement(EvaluateCondition(v, "=", value), EvaluateCondition(v, "≠", value))
  {
    Words();
    Signs();
    hide Same, Occurs;
  }

  // ----- lists, dictionaries, nothing -----

  /** A list contains what was put into it, and nothing if nothing was. */
  lemma ListsContain(xs: seq<Val>, y: Val, value: Val)
    ensures EvaluateCondition(List([]), "contains", value) == Some(false)
    ensures EvaluateCondition(List(xs + [value]), "contains", value) == Some(true)
    ensures EvaluateCondition(List(xs + [y]), "contains", value) ==
              Some(EvaluateCondition(List(xs), "contains", value) == Some(true) || Same(y, value))
  {
    Words();
    SameItself(value);
    assert (xs + [value])[|xs|] == value && (xs + [y])[|xs|] == y;
    if exists i | 0 <= i < |xs| :: Same(xs[i], value) {
      var i :| 0 <= i < |xs| && Same(xs[i], value);
      assert (xs + [y])[i] == xs[i];
    }
  }

  lemma ListsElse(xs: seq<Val>, ys: seq<Val>, value: Val)
    ensures EvaluateCondition(List(xs), "is", List(ys)) == Some(Same(List(xs), List(ys)))
    ensures !value.List? ==> EvaluateCondition(List(xs), "is", value) == Some(false)
    ensures EvaluateCondition(List(xs), "empty", value) == Some(xs == [])
    ensures forall op | op !in {"contains", "not contains", "is", "is not", "empty", "not empty"} ::
              EvaluateCondition(List(xs), op, value) == None
  {
    Words();
  }

  /** What counts as equal: numbers and truth values by number, lists by element, the rest only when
      it is the same. */
  lemma SameMeans(a: Val, b: Val)
    ensures a.Num? && b.Num? ==> (Same(a, b) <==> a.r == b.r)
    ensures a.Num? && b.Bool? ==> (Same(a, b) <==> a.r == if b.b then 1.0 else 0.0)
    ensures a.Str? || b.Str? || a.Null? || b.Null? || a.Dict? || b.Dict? ==> (Same(a, b) <==> a == b)
    ensures a.List? != b.List? ==> !Same(a, b)
    ensures a.List? && b.List? ==> (Same(a, b) <==>
      |a.items| == |b.items| && forall i | 0 <= i < |a.items| :: Same(a.items[i], b.items[i]))
  {
  }

  lemma {:induction false} SameItself(a: Val)
    ensures Same(a, a)
  {
    if a.List? {
      forall i | 0 <= i < |a.items| ensures Same(a.items[i], a.items[i]) {
        SameItself(a.items[i]);
      }
    }
  }

  /** Of a dictionary only its size matters; a missing variable only ever meets `empty`. */
  lemma OthersTest(size: nat, tag: nat, operator: string, value: Val)
    ensures EvaluateCondition(Dict(size, tag), "empty", value) == Some(size == 0)
    ensures operator !in {"empty", "not empty"} ==> EvaluateCondition(Dict(size, tag), operator, value) == None
    ensures EvaluateCondition(Null, operator, value) == Some(operator == "empty")
  {
    Words();
  }

  // ----- a condition, and a loop that counts -----

  /** An entry raises when it is incomplete, when its mode is unknown, when its variable cannot be
      read, or when its operator does not apply. */
  lemma ChecksRaise(c: Condition, v: Val, value: Val)
    ensures c.variable == "" || c.operator == "" || c.mode !in {"variable", "constant"} ==>
              Check(c, Reading(v, value)) == None
    ensures Check(c, Unreadable) == None
    ensures c.variable != "" && c.operator != "" && c.mode in {"variable", "constant"} ==>
              Check(c, Reading(v, value)) == EvaluateCondition(v, c.operator, value)
  {
  }

  /** A loop that ends when a count has reached `k`, and whose variable says how many passes have
      been completed, runs the smaller of its maximum and `k` passes. */
  lemma CountingLoopPasses(g: Graph, o: Oracle, x: LoopSite, lo: nat, c: Condition, k: nat)
    requires x.p in g.specs && g.specs[x.p].conditions == [c] && g.specs[x.p].logic in {"and", "or"}
    requires c.variable != "" && c.operator == "≥" && c.mode == "constant"
    requires forall n: nat | n <= k ::
      o(lo + n * x.Period()).readings == [Reading(Num(n as real), Num(k as real))]
    ensures Passes(g, o, x, lo, if Cap(g, x) < k then Cap(g, x) else k)
  {
    forall n: nat | n <= k ensures TestAfter(g, o, x, lo, n) == if n == k then Stop else Go {
      CountTest(c, g.specs[x.p].logic, n, k);
      assert o(lo + n * x.Period()).readings == [Reading(Num(n as real), Num(k as real))];
    }
  }

  lemma CountTest(c: Condition, logic: string, n: nat, k: nat)
    requires c.variable != "" && c.operator == "≥" && c.mode == "constant" && n <= k && logic in {"and", "or"}
    ensures VerdictOf([c], logic, [Reading(Num(n as real), Num(k as real))]) == if n == k then Stop else Go
  {
    var readings := [Reading(Num(n as real), Num(k as real))];
    NumbersCompare(k as real, n as real - k as real);
    assert k as real + (n as real - k as real) == n as real;
    assert Check(c, ReadingAt(readings, 0)) == Some(n == k);
    hide Check;
    assert Results([c], readings).Some?;
    var bs := Results([c], readings).value;
    assert |bs| == 1 && bs[0] == Met([c], readings, 0);
    assert |"and"| != |"or"|;
  }

  /** And so its body is executed that often. */
  lemma CountingLoopRuns(g: Graph, o: Oracle, s: RunState, x: LoopSite, c: Condition, k: nat)
    requires s.status.Running? && Ready(g, s) && FitsLoop(g, x) && EnteringLoop(g, s, x)
    requires x.p in g.specs && g.specs[x.p].conditions == [c] && g.specs[x.p].logic in {"and", "or"}
    requires c.variable != "" && c.operator == "≥" && c.mode == "constant"
    requires forall n: nat | n <= k ::
      o(s.idx + n * x.Period()).readings == [Reading(Num(n as real), Num(k as real))]
    requires QuietPasses(o, x, s.idx, if Cap(g, x) < k then Cap(g, x) else k)
    ensures var n := if Cap(g, x) < k then Cap(g, x) else k;
      LeavesAfter(g, o, s, x, n)
  {
    hide FitsLoop, EnteringLoop, QuietPasses, Rounds, Processed, WellFormed, Passes, Cap;
    CountingLoopPasses(g, o, x, s.idx, c, k);
    LoopRunsItsPasses(g, o, s, x, if Cap(g, x) < k then Cap(g, x) else k);
  }

  /** After `n` passes of its body the loop is left in the next round. */
  ghost predicate LeavesAfter(g: Graph, o: Oracle, s: RunState, x: LoopSite, n: nat)
    requires s.status.Running? && Ready(g, s) && x.p in g.specs
  {
    var r := Rounds(g, o, s, n * x.Period());
    && r.status.Running? && Ready(g, r)
    && r.flow.path == s.flow.path[..s.idx] + Unroll(x.item, x.body, n) + [x.item]
    && Left(g, x, r, Processed(g, o, r))
  }
}
