/** Naming the sheets of a workbook: titles that repeat get a numbered suffix, within a width of 31
    characters. */
module SheetNames {
  import opened Wrappers

  const WIDTH: nat := 31

  /** The decimal digits of a number. */
  function Digits(n: nat): (r: string)
    ensures r != [] && forall i | 0 <= i < |r| :: '0' <= r[i] <= '9'
  {
    var digit := ('0' as int + n % 10) as char;
    if n < 10 then [digit] else Digits(n / 10) + [digit]
  }

  function Numeral(s: string): int {
    if s == [] then 0 else Numeral(s[..|s| - 1]) * 10 + (s[|s| - 1] as int - '0' as int)
  }

  lemma {:induction false} NumeralOfDigits(n: nat)
    ensures Numeral(Digits(n)) == n
  {
    if n >= 10 {
      NumeralOfDigits(n / 10);
      assert Digits(n)[..|Digits(n)| - 1] == Digits(n / 10);
    } else {
      assert Digits(n)[..0] == [];
    }
  }

  function Power10(k: nat): nat {
    if k == 0 then 1 else 10 * Power10(k - 1)
  }

  lemma {:induction false} DigitCount(n: nat, k: nat)
    requires k > 0 && n < Power10(k)
    ensures |Digits(n)| <= k
    decreases k
  {
    if n >= 10 {
      assert Power10(1) == 10;
      DigitCount(n / 10, k - 1);
    }
  }

  /** `s[:k]`, where a negative `k` counts from the end. */
  function Prefix(s: string, k: int): (r: string)
    ensures r <= s && (|r| == k || k < 0 || r == s) && (k >= 0 ==> |r| <= k)
    ensures k < 0 ==> |r| == 0 || |r| - k == |s|
  {
    if k >= |s| then s
    else if k >= 0 then s[..k]
    else if |s| + k >= 0 then s[..|s| + k]
    else []
  }

  function Suffix(counter: nat): string {
    "_" + Digits(counter)
  }

  /** The name tried with a counter. */
  function Candidate(title: string, counter: nat): string {
    Prefix(title, WIDTH - |Suffix(counter)|) + Suffix(counter)
  }

  /** A candidate that fits keeps as much of the title as fits: all of it, or the width is used up. */
  lemma CandidateKeepsTheTitle(title: string, counter: nat) returns (kept: string)
    requires counter < Power10(30)
    ensures kept <= title && Candidate(title, counter) == kept + "_" + Digits(counter)
    ensures kept == title || |Candidate(title, counter)| == WIDTH
    ensures kept == title <==> |title| + 1 + |Digits(counter)| <= WIDTH
  {
    DigitCount(counter, 30);
    kept := Prefix(title, WIDTH - |Suffix(counter)|);
  }

  /** What follows the last underscore determines the counter, whatever the title. */
  lemma CandidatesDiffer(title: string, a: nat, b: nat)
    requires Candidate(title, a) == Candidate(title, b)
    ensures a == b
  {
    var x, y := Prefix(title, WIDTH - |Suffix(a)|), Prefix(title, WIDTH - |Suffix(b)|);
    var name := Candidate(title, a);
    assert name == x + "_" + Digits(a) && name == y + "_" + Digits(b);
    LastUnderscore(x, Digits(a), y, Digits(b));
    NumeralOfDigits(a);
    NumeralOfDigits(b);
  }

  lemma LastUnderscore(x: string, d: string, y: string, e: string)
    requires x + "_" + d == y + "_" + e
    requires forall i | 0 <= i < |d| :: d[i] != '_'
    requires forall i | 0 <= i < |e| :: e[i] != '_'
    ensures d == e
  {
    var s := x + "_" + d;
    assert s[|x|] == '_' && s[|y|] == '_';
    assert s[|x| + 1..] == d && s[|y| + 1..] == e;
    forall i | |x| < i < |s| ensures s[i] != '_' {
      assert s[i] == d[i - |x| - 1];
    }
    forall i | |y| < i < |s| ensures s[i] != '_' {
      assert s[i] == e[i - |y| - 1];
    }
  }

  /** The candidates with counters below `counter`. */
  function Tried(title: string, counter: nat): set<string> {
    if counter <= 1 then {} else Tried(title, counter - 1) + {Candidate(title, counter - 1)}
  }

  lemma {:induction false} TriedMembers(title: string, counter: nat, name: string)
    requires name in Tried(title, counter)
    ensures exists k: nat :: 1 <= k < counter && name == Candidate(title, k)
  {
    if name == Candidate(title, counter - 1) {
    } else {
      TriedMembers(title, counter - 1, name);
    }
  }

  /** Distinct counters give distinct names, so trying is counting. */
  lemma {:induction false} TriedCount(title: string, counter: nat)
    requires counter >= 1
    ensures |Tried(title, counter)| == counter - 1
  {
    if counter > 1 {
      TriedCount(title, counter - 1);
      if Candidate(title, counter - 1) in Tried(title, counter - 1) {
        TriedMembers(title, counter - 1, Candidate(title, counter - 1));
        var k: nat :| 1 <= k < counter - 1 && Candidate(title, counter - 1) == Candidate(title, k);
        CandidatesDiffer(title, counter - 1, k);
      }
    }
  }

  lemma CandidateWidth(title: string, counter: nat)
    requires counter < Power10(30)
    ensures |Candidate(title, counter)| <= WIDTH
  {
    DigitCount(counter, 30);
  }

  /** A number of thirty-one digits no longer fits: its suffix alone is too wide. */
  lemma {:induction false} ManyDigits(n: nat, k: nat)
    requires n >= Power10(k)
    ensures |Digits(n)| > k
    decreases k
  {
    if k > 0 {
      assert n >= 10 by {
        PowerPositive(k - 1);
      }
      ManyDigits(n / 10, k - 1);
    }
  }

  lemma {:induction false} PowerPositive(k: nat)
    ensures Power10(k) >= 1
  {
    if k > 0 {
      PowerPositive(k - 1);
    }
  }

  /** Exactly the counters below ten to the thirtieth give names that fit. */
  lemma CandidateFitsExactly(title: string, counter: nat)
    ensures |Candidate(title, counter)| <= WIDTH <==> counter < Power10(30)
  {
    if counter < Power10(30) {
      CandidateWidth(title, counter);
    } else {
      ManyDigits(counter, 30);
    }
  }

  /** `name` is what a title becomes when `used` is taken: the title if it is free, or else the
      candidate with the least counter that is. */
  ghost predicate NamedAfter(title: string, used: set<string>, name: string) {
    if title !in used then name == title
    else exists k: nat :: IsFirstFree(title, used, name, k)
  }

  ghost predicate IsFirstFree(title: string, used: set<string>, name: string, k: nat) {
    1 <= k <= |used| + 1 && name == Candidate(title, k) && name !in used && Tried(title, k) <= used
  }

  /** The search for one free name. It ends because only finitely many names are used. */
  method FreeName(title: string, used: set<string>) returns (name: string)
    ensures name !in used && NamedAfter(title, used, name)
  {
    name := title;
    var counter: nat := 1;
    while name in used
      invariant 1 <= counter <= |used| + 2
      invariant Tried(title, counter) <= used + {name}
      invariant if counter == 1 then name == title
                else title in used && name == Candidate(title, counter - 1) && Tried(title, counter - 1) <= used
      decreases |used| + 2 - counter
    {
      TriedCount(title, counter);
      SubsetSize(Tried(title, counter), used);
      name := Candidate(title, counter);
      counter := counter + 1;
    }
    if counter > 1 {
      TriedCount(title, counter - 1);
      SubsetSize(Tried(title, counter - 1), used);
      assert IsFirstFree(title, used, name, counter - 1);
    }
  }

  function Used(names: seq<string>): (r: set<string>)
    ensures forall n :: n in r <==> n in names
    ensures |r| <= |names|
  {
    if names == [] then {} else Used(names[..|names| - 1]) + {names[|names| - 1]}
  }

  /** The names given to the first titles: each is what its title becomes after the earlier ones. */
  ghost predicate AllNamed(titles: seq<string>, names: seq<string>) {
    && |names| <= |titles|
    && (forall i, j | 0 <= i < j < |names| :: names[i] != names[j])
    && (forall i | 0 <= i < |names| :: NamedAt(titles, names, i))
  }

  ghost predicate NamedAt(titles: seq<string>, names: seq<string>, i: nat)
    requires i < |names| <= |titles|
  {
    NamedAfter(titles[i], Used(names[..i]), names[i])
  }

  lemma UsedMore(names: seq<string>, name: string)
    ensures Used(names + [name]) == Used(names) + {name}
  {
    assert (names + [name])[..|names|] == names;
  }

  lemma OneMoreName(titles: seq<string>, names: seq<string>, name: string)
    requires AllNamed(titles, names) && |names| < |titles|
    requires name !in Used(names) && NamedAfter(titles[|names|], Used(names), name)
    ensures AllNamed(titles, names + [name])
    ensures Used(names + [name]) == Used(names) + {name}
  {
    hide NamedAfter, Used;
    var more := names + [name];
    UsedMore(names, name);
    assert forall i | 0 <= i < |names| :: names[i] in Used(names);
    assert more[..|names|] == names;
    forall i | 0 <= i < |more| ensures NamedAt(titles, more, i) {
      if i < |names| {
        assert NamedAt(titles, names, i);
        assert more[..i] == names[..i];
      }
    }
  }

  /** Names are distinct, and each is its title or the first free candidate for it. */
  method NameSheets(titles: seq<string>) returns (names: seq<string>)
    ensures |names| == |titles| && AllNamed(titles, names)
  {
    hide AllNamed, Used, NamedAfter;
    names := [];
    NoNames(titles);
    var used := {};
    var i := 0;
    while i < |titles|
      invariant i <= |titles| && |names| == i && used == Used(names)
      invariant AllNamed(titles, names)
    {
      var name := FreeName(titles[i], used);
      OneMoreName(titles, names, name);
      names := names + [name];
      used := used + {name};
      i := i + 1;
    }
  }

  lemma NoNames(titles: seq<string>)
    ensures AllNamed(titles, []) && Used([]) == {}
  {
  }

  /** When every title fits and there are fewer than ten to the thirtieth of them, every name fits. */
  lemma NamesFit(titles: seq<string>, names: seq<string>, i: nat)
    requires AllNamed(titles, names) && i < |names|
    requires |titles| < Power10(30) && |titles[i]| <= WIDTH
    ensures |names[i]| <= WIDTH
  {
    hide Power10, NamedAfter;
    assert NamedAt(titles, names, i);
    NameWidth(titles[i], Used(names[..i]), names[i], |titles|);
  }

  lemma NameWidth(title: string, used: set<string>, name: string, n: nat)
    requires NamedAfter(title, used, name) && |used| < n < Power10(30)
    ensures |title| <= WIDTH ==> |name| <= WIDTH
  {
    if title in used {
      var k: nat :| IsFirstFree(title, used, name, k);
      CandidateWidth(title, k);
    }
  }
}
