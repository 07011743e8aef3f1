/** The word wrapper that the document generator uses for long table cells. */
module WordWrap {

  const MAX_CHARS: nat := 100

  /** `' '.join(words)` */
  function Join(words: seq<string>): string {
    if words == [] then ""
    else if |words| == 1 then words[0]
    else Join(words[..|words| - 1]) + " " + words[|words| - 1]
  }

  function Flatten(groups: seq<seq<string>>): seq<string> {
    if groups == [] then [] else Flatten(groups[..|groups| - 1]) + groups[|groups| - 1]
  }

  lemma JoinMore(words: seq<string>, word: string)
    ensures Join(words + [word]) == if words == [] then word else Join(words) + " " + word
  {
    assert (words + [word])[..|words|] == words;
  }

  lemma FlattenMore(groups: seq<seq<string>>, group: seq<string>)
    ensures Flatten(groups + [group]) == Flatten(groups) + group
  {
    assert (groups + [group])[..|groups|] == groups;
  }

  /** A line cut at each of its blanks. */
  function Cut(s: string): seq<string>
    decreases |s|
  {
    var i := LastBlank(s);
    if i < 0 then [s] else Cut(s[..i]) + [s[i + 1..]]
  }

  /** Where the last blank is, or -1. */
  function LastBlank(s: string): (i: int)
    ensures -1 <= i < |s|
    ensures i >= 0 ==> s[i] == ' '
    ensures forall j | i < j < |s| :: s[j] != ' '
  {
    if s == "" then -1 else if s[|s| - 1] == ' ' then |s| - 1 else LastBlank(s[..|s| - 1])
  }

  /** The last blank is the one in front of the last word. */
  lemma {:induction false} CutLast(front: string, word: string)
    requires ' ' !in word
    ensures LastBlank(word) == -1 && Cut(front + " " + word) == Cut(front) + [word]
  {
    var line := front + " " + word;
    var i := LastBlank(line);
    assert line[|front|] == ' ';
    assert line[|front| + 1..] == word && line[..|front|] == front;
    assert forall j | |front| < j < |line| :: line[j] == line[|front| + 1..][j - |front| - 1];
  }

  /** Joining loses nothing: a line of words without blanks is cut into just these words. */
  lemma {:induction false} LineIsItsWords(words: seq<string>)
    requires words != [] && forall k | 0 <= k < |words| :: ' ' !in words[k]
    ensures Cut(Join(words)) == words
  {
    hide Cut, LastBlank;
    var n := |words| - 1;
    if n == 0 {
      CutOne(words[0]);
    } else {
      LineIsItsWords(words[..n]);
      CutLast(Join(words[..n]), words[n]);
      assert words == words[..n] + [words[n]];
    }
  }

  lemma CutOne(word: string)
    requires ' ' !in word
    ensures Cut(word) == [word]
  {
    assert forall j | 0 <= j < |word| :: word[j] != ' ';
  }

  /** The length the wrapper keeps for the line it is filling. On the first line of a paragraph it
      counts a space too many, because it looks whether the line is empty after adding the word. */
  function Tracked(line: seq<string>, first: bool): nat {
    |Join(line)| + (if first && line != [] then 1 else 0)
  }

  /** Line `k` breaks before `next` exactly when the tracked length says that it does not fit. */
  ghost predicate Breaks(line: seq<string>, first: bool, next: string) {
    line != [] && Tracked(line, first) + |next| + 1 > MAX_CHARS
  }

  /** A line is filled greedily: each of its words but the first fitted after those before it. */
  ghost predicate Filled(line: seq<string>, first: bool) {
    line != [] && forall j | 0 < j < |line| :: FitsAt(line, first, j)
  }

  ghost predicate FitsAt(line: seq<string>, first: bool, j: nat)
    requires j < |line|
  {
    !Breaks(line[..j], first, line[j])
  }

  ghost predicate Wrapped(groups: seq<seq<string>>) {
    && (forall k | 0 <= k < |groups| :: Filled(groups[k], k == 0))
    && (forall k | 0 < k < |groups| :: groups[k] != [] && Breaks(groups[k - 1], k - 1 == 0, groups[k][0]))
  }

  /** A greedily filled line is short enough, or it is one word. */
  lemma FilledIsShort(line: seq<string>, first: bool)
    requires Filled(line, first)
    ensures |line| == 1 || |Join(line)| <= MAX_CHARS
  {
    if |line| > 1 {
      assert FitsAt(line, first, |line| - 1);
    }
  }

  /** A line breaks exactly when the next word does not fit, but for the first line of a paragraph:
      that one also breaks when the word would have filled it to the last character. */
  lemma BreakIsNeeded(line: seq<string>, first: bool, next: string)
    requires line != []
    ensures var length := |Join(line + [next])|;
      Breaks(line, first, next) <==> length > MAX_CHARS || (first && length == MAX_CHARS)
  {
    JoinMore(line, next);
  }

  /** A first line that breaks although it has room for the next word. */
  lemma FirstLineBreaksEarly()
    ensures exists line: seq<string>, next: string :: Breaks(line, true, next) && |Join(line + [next])| == MAX_CHARS
  {
    var line, next := [seq(49, i => 'a')], seq(50, i => 'b');
    JoinMore(line, next);
    JoinMore([], line[0]);
    assert Breaks(line, true, next);
  }

  /** There is only one way to wrap a list of words like this. */
  lemma {:induction false} WrapIsUnique(xs: seq<seq<string>>, ys: seq<seq<string>>)
    requires Wrapped(xs) && Wrapped(ys) && Flatten(xs) == Flatten(ys)
    ensures xs == ys
  {
    SameLines(xs, ys, if |xs| < |ys| then |xs| else |ys|);
    if |xs| < |ys| {
      TooMany(xs, ys);
    } else if |ys| < |xs| {
      TooMany(ys, xs);
    }
  }

  lemma {:induction false} FlattenPrefix(groups: seq<seq<string>>, n: nat)
    requires n <= |groups|
    ensures Flatten(groups[..n]) <= Flatten(groups)
    decreases |groups|
  {
    if n < |groups| {
      assert groups[..|groups| - 1][..n] == groups[..n];
      FlattenPrefix(groups[..|groups| - 1], n);
    } else {
      assert groups[..n] == groups;
    }
  }

  /** Where line `n` starts in the list of words. */
  function Offset(groups: seq<seq<string>>, n: nat): nat
    requires n <= |groups|
  {
    |Flatten(groups[..n])|
  }

  lemma LineAt(groups: seq<seq<string>>, n: nat)
    requires n < |groups|
    ensures Offset(groups, n + 1) == Offset(groups, n) + |groups[n]| <= |Flatten(groups)|
    ensures Flatten(groups)[Offset(groups, n)..Offset(groups, n + 1)] == groups[n]
    ensures n + 1 == |groups| ==> Offset(groups, n + 1) == |Flatten(groups)|
  {
    assert groups[..n + 1] == groups[..n] + [groups[n]];
    FlattenMore(groups[..n], groups[n]);
    FlattenPrefix(groups, n + 1);
    assert n + 1 == |groups| ==> groups[..n + 1] == groups;
  }

  /** A line breaks before the word that follows it. */
  lemma BreaksBeforeNext(groups: seq<seq<string>>, n: nat)
    requires Wrapped(groups) && n + 1 < |groups|
    ensures var words, e := Flatten(groups), Offset(groups, n + 1);
      e < |words| && Breaks(groups[n], n == 0, words[e])
  {
    hide Flatten, Offset, Breaks;
    LineAt(groups, n);
    LineAt(groups, n + 1);
    var words, e := Flatten(groups), Offset(groups, n + 1);
    assert Filled(groups[n + 1], false);
    assert groups[n + 1][0] == words[e];
  }

  /** A line does not break inside. */
  lemma NoBreakInside(groups: seq<seq<string>>, n: nat, m: nat)
    requires Wrapped(groups) && n < |groups| && 0 < m < |groups[n]|
    ensures var words, a := Flatten(groups), Offset(groups, n);
      a + m < |words| && !Breaks(words[a..a + m], n == 0, words[a + m])
  {
    hide Flatten, Offset, Breaks;
    LineAt(groups, n);
    var words, a := Flatten(groups), Offset(groups, n);
    assert Filled(groups[n], n == 0) && FitsAt(groups[n], n == 0, m);
    assert groups[n][..m] == words[a..a + m] && groups[n][m] == words[a + m];
  }

  lemma LineEnds(groups: seq<seq<string>>, n: nat)
    requires n < |groups|
    ensures Offset(groups, n + 1) == Offset(groups, n) + |groups[n]| <= |Flatten(groups)|
    ensures n + 1 == |groups| ==> Offset(groups, n + 1) == |Flatten(groups)|
  {
    hide Flatten, Offset;
    LineAt(groups, n);
  }

  lemma LineWords(groups: seq<seq<string>>, n: nat)
    requires n < |groups| && Offset(groups, n) + |groups[n]| <= |Flatten(groups)|
    ensures Flatten(groups)[Offset(groups, n)..Offset(groups, n) + |groups[n]|] == groups[n]
  {
    hide Flatten, Offset;
    LineAt(groups, n);
  }

  lemma LineIsFilled(groups: seq<seq<string>>, n: nat)
    requires Wrapped(groups) && n < |groups|
    ensures Filled(groups[n], n == 0) && groups[n] != []
  {
  }

  /** A line that ends where another, longer one goes on would have had to break there. */
  lemma NotLonger(xs: seq<seq<string>>, ys: seq<seq<string>>, n: nat)
    requires Wrapped(xs) && Wrapped(ys) && Flatten(xs) == Flatten(ys)
    requires n < |xs| && n < |ys| && Offset(xs, n) == Offset(ys, n)
    ensures |xs[n]| >= |ys[n]|
  {
    hide Flatten, Offset, Breaks, Wrapped, Filled;
    LineIsFilled(xs, n);
    LineEnds(xs, n);
    LineEnds(ys, n);
    var m := |xs[n]|;
    if m < |ys[n]| {
      assert n + 1 < |xs|;
      NoBreakInside(ys, n, m);
      BreaksBeforeNext(xs, n);
      LineWords(xs, n);
      assert false;
    }
  }

  lemma {:induction false} SameLines(xs: seq<seq<string>>, ys: seq<seq<string>>, n: nat)
    requires Wrapped(xs) && Wrapped(ys) && Flatten(xs) == Flatten(ys)
    requires n <= |xs| && n <= |ys|
    ensures xs[..n] == ys[..n]
  {
    hide Flatten, Offset, Wrapped;
    if n > 0 {
      SameLines(xs, ys, n - 1);
      SameOffset(xs, ys, n - 1);
      NotLonger(xs, ys, n - 1);
      NotLonger(ys, xs, n - 1);
      LineAt(xs, n - 1);
      LineAt(ys, n - 1);
      assert xs[..n] == xs[..n - 1] + [xs[n - 1]];
      assert ys[..n] == ys[..n - 1] + [ys[n - 1]];
    }
  }

  lemma SameOffset(xs: seq<seq<string>>, ys: seq<seq<string>>, n: nat)
    requires n <= |xs| && n <= |ys| && xs[..n] == ys[..n]
    ensures Offset(xs, n) == Offset(ys, n)
  {
  }

  lemma TooMany(xs: seq<seq<string>>, ys: seq<seq<string>>)
    requires Wrapped(ys) && Flatten(xs) == Flatten(ys) && |xs| < |ys|
    ensures xs[..|xs|] != ys[..|xs|]
  {
    hide Flatten;
    assert xs[..|xs|] == xs;
    LineAt(ys, |xs|);
    assert Filled(ys[|xs|], |xs| == 0);
  }

  /** The lines so far and the one being filled. */
  ghost predicate Pending(groups: seq<seq<string>>, current: seq<string>) {
    if current == [] then groups == [] else Wrapped(groups + [current])
  }

  lemma NewLine(groups: seq<seq<string>>, current: seq<string>, word: string)
    requires Pending(groups, current) && Breaks(current, groups == [], word)
    ensures Pending(groups + [current], [word]) && Flatten(groups + [current]) == Flatten(groups) + current
    ensures Tracked([word], false) == |word|
  {
    FlattenMore(groups, current);
    var before, after := groups + [current], groups + [current] + [[word]];
    assert forall k | 0 <= k < |before| :: after[k] == before[k];
    assert before[|groups|] == current;
  }

  lemma SameLine(groups: seq<seq<string>>, current: seq<string>, word: string)
    requires Pending(groups, current) && !Breaks(current, groups == [], word)
    ensures Pending(groups, current + [word])
    ensures Tracked(current + [word], groups == []) == Tracked(current, groups == []) + |word| + 1
  {
    JoinMore(current, word);
    var line, first := current + [word], groups == [];
    var before, after := groups + [current], groups + [line];
    if current != [] {
      assert Filled(before[|groups|], |groups| == 0);
    }
    forall j | 0 < j < |line| ensures FitsAt(line, first, j) {
      if j < |current| {
        assert FitsAt(current, first, j);
        assert line[..j] == current[..j];
      } else {
        assert line[..j] == current;
      }
    }
    forall k | 0 <= k < |after| ensures Filled(after[k], k == 0) {
      if k < |groups| {
        assert Filled(before[k], k == 0);
      }
    }
    forall k | 0 < k < |after| ensures after[k] != [] && Breaks(after[k - 1], k - 1 == 0, after[k][0]) {
      assert Breaks(before[k - 1], k - 1 == 0, before[k][0]);
    }
  }

  lemma LastLine(groups: seq<seq<string>>, current: seq<string>)
    requires Pending(groups, current)
    ensures if current == [] then groups == [] && Wrapped(groups) else Wrapped(groups + [current])
  {
  }

  /** The wrapping loop: every word is kept, in order, and the lines are the greedy ones. */
  method Wrap(words: seq<string>) returns (lines: seq<string>, groups: seq<seq<string>>)
    ensures |lines| == |groups| && forall k | 0 <= k < |lines| :: lines[k] == Join(groups[k])
    ensures Flatten(groups) == words && Wrapped(groups)
    ensures forall k | 0 <= k < |lines| :: |lines[k]| <= MAX_CHARS || |groups[k]| == 1
  {
    hide Filled, Flatten, Join, Wrapped, Pending;
    lines, groups := [], [];
    var current: seq<string>, length := [], 0;
    NothingWrapped();
    var i := 0;
    while i < |words|
      invariant i <= |words| && |lines| == |groups|
      invariant forall k | 0 <= k < |lines| :: lines[k] == Join(groups[k])
      invariant Flatten(groups) + current == words[..i]
      invariant Pending(groups, current)
      invariant length == Tracked(current, groups == [])
    {
      var word := words[i];
      assert words[..i + 1] == words[..i] + [word];
      if current != [] && length + |word| + 1 > MAX_CHARS {
        NewLine(groups, current, word);
        lines := lines + [Join(current)];
        groups := groups + [current];
        current := [word];
        length := |word|;
      } else {
        SameLine(groups, current, word);
        assert Flatten(groups) + (current + [word]) == Flatten(groups) + current + [word];
        current := current + [word];
        length := length + |word| + 1;
      }
      i := i + 1;
    }
    LastLine(groups, current);
    FlattenMore(groups, current);
    if current != [] {
      lines := lines + [Join(current)];
      groups := groups + [current];
    } else {
      assert Flatten(groups) + current == Flatten(groups);
    }
    assert words[..i] == words;
    LinesAreShort(groups);
  }

  lemma LinesAreShort(groups: seq<seq<string>>)
    requires Wrapped(groups)
    ensures forall k | 0 <= k < |groups| :: |Join(groups[k])| <= MAX_CHARS || |groups[k]| == 1
  {
    forall k | 0 <= k < |groups| ensures |Join(groups[k])| <= MAX_CHARS || |groups[k]| == 1 {
      FilledIsShort(groups[k], k == 0);
    }
  }

  lemma NothingWrapped()
    ensures Pending([], []) && Flatten([]) == [] && Join([]) == ""
  {
  }
}
