/** The dynamically typed values that components exchange, with the parts of the language's
    own comparison rules that the workflow engine relies on. */
module Values {

  /** `Dict` keeps only what the engine looks at: the number of keys, and an identity tag. */
  datatype Val =
    | Null
    | Str(s: string)
    | Num(r: real)
    | Bool(b: bool)
    | Dict(size: nat, tag: nat)
    | List(items: seq<Val>)

  predicate Numeric(v: Val) {
    v.Num? || v.Bool?
  }

  /** A boolean counts as the number 0 or 1. */
  function Number(v: Val): real
    requires Numeric(v)
  {
    match v
    case Num(r) => r
    case Bool(b) => if b then 1.0 else 0.0
  }

  predicate Truthy(v: Val) {
    match v
    case Null => false
    case Str(s) => s != ""
    case Num(r) => r != 0.0
    case Bool(b) => b
    case Dict(size, _) => size > 0
    case List(items) => items != []
  }

  /** The `==` of the source language: numbers and booleans compare by number, lists by element. */
  predicate Same(a: Val, b: Val) {
    if Numeric(a) && Numeric(b) then Number(a) == Number(b)
    else if a.List? && b.List? then
      |a.items| == |b.items| && forall i | 0 <= i < |a.items| :: Same(a.items[i], b.items[i])
    else a == b
  }

  predicate OccursAt(part: string, whole: string, i: nat) {
    i + |part| <= |whole| && whole[i..i + |part|] == part
  }

  predicate Occurs(part: string, whole: string) {
    exists i | 0 <= i <= |whole| :: OccursAt(part, whole, i)
  }

  predicate StartsWith(s: string, prefix: string) {
    prefix <= s
  }

  predicate EndsWith(s: string, suffix: string) {
    |suffix| <= |s| && s[|s| - |suffix|..] == suffix
  }

  function LowerChar(c: char): char {
    if 'A' <= c <= 'Z' then ((c as int) + 32) as char else c
  }

  function Lower(s: string): string {
    seq(|s|, i requires 0 <= i < |s| => LowerChar(s[i]))
  }
}
