/** The block structure of the markdown parser of the document generator. Formatting inside a block
    is left out; what is modelled is which lines form which block. */
module Markdown {

  predicate IsSpace(c: char) {
    c == ' ' || '\t' <= c <= '\r' || 0x1c <= c as int <= 0x1f || c as int == 0x85 || c as int == 0xa0
  }

  function StripLeft(s: string): (r: string)
    ensures r == "" || !IsSpace(r[0])
  {
    if s != "" && IsSpace(s[0]) then StripLeft(s[1..]) else s
  }

  function StripRight(s: string): (r: string)
    ensures r <= s && (r == "" || !IsSpace(r[|r| - 1]))
  {
    if s != "" && IsSpace(s[|s| - 1]) then StripRight(s[..|s| - 1]) else s
  }

  function Strip(s: string): string {
    StripRight(StripLeft(s))
  }

  lemma {:induction false} SpaceBefore(x: string, t: string)
    requires (forall i | 0 <= i < |x| :: IsSpace(x[i])) && (t == "" || !IsSpace(t[0]))
    ensures StripLeft(x + t) == t
  {
    if x == "" {
      assert x + t == t;
    } else {
      assert (x + t)[1..] == x[1..] + t;
      SpaceBefore(x[1..], t);
    }
  }

  lemma {:induction false} SpaceAfter(t: string, y: string)
    requires (forall i | 0 <= i < |y| :: IsSpace(y[i])) && (t == "" || !IsSpace(t[|t| - 1]))
    ensures StripRight(t + y) == t
  {
    if y == "" {
      assert t + y == t;
    } else {
      assert (t + y)[..|t + y| - 1] == t + y[..|y| - 1];
      SpaceAfter(t, y[..|y| - 1]);
    }
  }

  /** White space around a text is taken off, and nothing else is. */
  lemma SpaceAround(x: string, t: string, y: string)
    requires (forall i | 0 <= i < |x| :: IsSpace(x[i])) && (forall i | 0 <= i < |y| :: IsSpace(y[i]))
    requires t != "" && !IsSpace(t[0]) && !IsSpace(t[|t| - 1])
    ensures Strip(x + t + y) == t
  {
    assert x + t + y == x + (t + y);
    SpaceBefore(x, t + y);
    SpaceAfter(t, y);
  }

  predicate Starts(s: string, prefix: string) {
    prefix <= s
  }

  /** How many digits a string starts with. */
  function LeadingDigits(s: string): (n: nat)
    ensures n <= |s|
  {
    if s != "" && '0' <= s[0] <= '9' then 1 + LeadingDigits(s[1..]) else 0
  }

  // ----- tests on one line -----

  predicate IsBlank(line: string) { Strip(line) == "" }

  predicate IsRule(line: string) { Strip(line) == "---" || Strip(line) == "___" }

  /** The heading level, or 0. */
  function Level(line: string): (n: nat)
    ensures n <= 3
  {
    var s := Strip(line);
    if Starts(s, "# ") then 1 else if Starts(s, "## ") then 2 else if Starts(s, "### ") then 3 else 0
  }

  predicate IsBullet(line: string) { Starts(Strip(line), "- ") || Starts(Strip(line), "* ") }

  /** Digits, a period, and white space. */
  predicate IsNumbered(line: string) {
    var s := Strip(line);
    var n := LeadingDigits(s);
    n > 0 && n + 1 < |s| && s[n] == '.' && IsSpace(s[n + 1])
  }

  predicate IsRow(line: string) { Strip(line) != "" && '|' in line }

  predicate OpensTable(line: string) { Starts(Strip(line), "|") }

  predicate IsFence(line: string) { Starts(Strip(line), "```") }

  /** `_is_special_line`: lines that end a paragraph. */
  predicate IsSpecial(line: string) {
    || Starts(Strip(line), "#") || IsBullet(line) || IsNumbered(line) || IsRule(line) || IsFence(line)
    || '|' in Strip(line)
  }

  lemma StripKeepsBar(line: string)
    requires Starts(Strip(line), "|")
    ensures IsRow(line)
  {
    var l := StripLeft(line);
    StripLeftIsSuffix(line);
    assert Strip(line)[0] == '|';
    assert l[0] == '|' && l[0] in line;
  }

  lemma {:induction false} StripLeftIsSuffix(s: string)
    ensures forall c | c in StripLeft(s) :: c in s
  {
    if s != "" && IsSpace(s[0]) {
      StripLeftIsSuffix(s[1..]);
    }
  }

  // ----- blocks -----

  datatype Kind = Blank | Rule | Heading(level: nat) | Bullets | Numbered | Table | Code | Paragraph

  datatype Block = Block(kind: Kind, lo: nat, hi: nat)

  /** The kind of the block that starts at line `i`: the first test that succeeds decides. A single
      table row is no table. */
  function KindAt(lines: seq<string>, i: nat): Kind
    requires i < |lines|
  {
    var line := lines[i];
    if IsBlank(line) then Blank
    else if IsRule(line) then Rule
    else if Level(line) > 0 then Heading(Level(line))
    else if IsBullet(line) then Bullets
    else if IsNumbered(line) then Numbered
    else if OpensTable(line) && i + 1 < |lines| && IsRow(lines[i + 1]) then Table
    else if IsFence(line) then Code
    else Paragraph
  }

  /** Does line `j` continue a block of kind `k`? */
  predicate Continues(k: Kind, line: string) {
    match k
    case Bullets => IsBullet(line)
    case Numbered => IsNumbered(line)
    case Table => IsRow(line)
    case Code => !IsFence(line)
    case Paragraph => !IsBlank(line) && !IsSpecial(line)
    case _ => false
  }

  /** A block is as long as its kind allows: all its lines but the first continue it, and it stops
      before the first line that does not. A code block also takes its closing fence. */
  ghost predicate IsBlock(lines: seq<string>, b: Block) {
    && b.lo < b.hi <= |lines|
    && b.kind == KindAt(lines, b.lo)
    && var last := if b.kind.Code? && b.hi - 1 > b.lo && IsFence(lines[b.hi - 1]) then b.hi - 1 else b.hi;
       && (forall j | b.lo < j < last :: Continues(b.kind, lines[j]))
       && (last < |lines| ==> !Continues(b.kind, lines[last]))
       && (b.kind.Code? ==> last < b.hi || b.hi == |lines|)
  }

  /** The blocks cover the lines from `lo` to `hi`, one after the other. */
  ghost predicate Covers(blocks: seq<Block>, lo: nat, hi: nat) {
    if blocks == [] then lo == hi
    else blocks[|blocks| - 1].hi == hi && Covers(blocks[..|blocks| - 1], lo, blocks[|blocks| - 1].lo)
  }

  ghost predicate Parses(lines: seq<string>, blocks: seq<Block>, hi: nat) {
    Covers(blocks, 0, hi) && forall i | 0 <= i < |blocks| :: IsBlock(lines, blocks[i])
  }

  lemma CoversMore(lines: seq<string>, blocks: seq<Block>, b: Block)
    requires Parses(lines, blocks, b.lo) && IsBlock(lines, b)
    ensures Parses(lines, blocks + [b], b.hi)
  {
    assert (blocks + [b])[..|blocks|] == blocks;
  }

  /** Two blocks that start at the same line are the same block. */
  lemma BlockIsDetermined(lines: seq<string>, a: Block, b: Block)
    requires IsBlock(lines, a) && IsBlock(lines, b) && a.lo == b.lo
    ensures a == b
  {
    hide KindAt, IsBlank, IsSpecial, IsBullet, IsNumbered, IsRow, IsFence;
    assert a.kind == b.kind;
  }

  /** A parse is determined by the lines: there is only one way to cut them into blocks. */
  lemma {:induction false} ParseIsUnique(lines: seq<string>, xs: seq<Block>, ys: seq<Block>)
    requires Parses(lines, xs, |lines|) && Parses(lines, ys, |lines|)
    ensures xs == ys
  {
    hide IsBlock;
    CommonPrefix(lines, xs, ys, if |xs| < |ys| then |xs| else |ys|);
    assert xs[..|xs|] == xs && ys[..|ys|] == ys;
    if |xs| < |ys| {
      StopsShort(lines, ys, |xs|);
      CoversEnd(xs, |lines|, ys[|xs|].lo);
    } else if |ys| < |xs| {
      StopsShort(lines, xs, |ys|);
      CoversEnd(ys, |lines|, xs[|ys|].lo);
    }
  }

  lemma {:induction false} CommonPrefix(lines: seq<string>, xs: seq<Block>, ys: seq<Block>, n: nat)
    requires Parses(lines, xs, |lines|) && Parses(lines, ys, |lines|)
    requires n <= |xs| && n <= |ys|
    ensures xs[..n] == ys[..n]
  {
    hide IsBlock;
    if n > 0 {
      CommonPrefix(lines, xs, ys, n - 1);
      PrefixCovers(xs, |lines|, n - 1);
      PrefixCovers(ys, |lines|, n - 1);
      CoversEnd(xs[..n - 1], xs[n - 1].lo, ys[n - 1].lo);
      BlockIsDetermined(lines, xs[n - 1], ys[n - 1]);
      assert xs[..n] == xs[..n - 1] + [xs[n - 1]];
      assert ys[..n] == ys[..n - 1] + [ys[n - 1]];
    }
  }

  lemma {:induction false} PrefixCovers(xs: seq<Block>, hi: nat, n: nat)
    requires Covers(xs, 0, hi) && n < |xs|
    ensures Covers(xs[..n], 0, xs[n].lo)
    decreases |xs|
  {
    if n < |xs| - 1 {
      PrefixCovers(xs[..|xs| - 1], xs[|xs| - 1].lo, n);
      assert xs[..|xs| - 1][..n] == xs[..n];
    }
  }

  lemma CoversEnd(xs: seq<Block>, a: nat, b: nat)
    requires Covers(xs, 0, a) && Covers(xs, 0, b)
    ensures a == b
  {
  }

  lemma StopsShort(lines: seq<string>, xs: seq<Block>, n: nat)
    requires Parses(lines, xs, |lines|) && n < |xs|
    ensures xs[n].lo < |lines| && Covers(xs[..n], 0, xs[n].lo)
  {
    PrefixCovers(xs, |lines|, n);
    assert IsBlock(lines, xs[n]);
  }

  // ----- the parser -----

  /** The inner loops that collect lines while they continue a block of kind `k`. */
  method Collect(lines: seq<string>, k: Kind, from: nat) returns (i: nat)
    requires from <= |lines|
    ensures from <= i <= |lines|
    ensures forall j | from <= j < i :: Continues(k, lines[j])
    ensures i < |lines| ==> !Continues(k, lines[i])
  {
    i := from;
    while i < |lines| && Continues(k, lines[i])
      invariant from <= i <= |lines|
      invariant forall j | from <= j < i :: Continues(k, lines[j])
    {
      i := i + 1;
    }
  }

  /** `_parse_markdown_content`. Every pass of the outer loop takes at least one line, also the one
      that collects a single table row, goes back, and falls through to a paragraph. */
  method Parse(lines: seq<string>) returns (blocks: seq<Block>)
    ensures Parses(lines, blocks, |lines|)
  {
    hide Parses, Strip, LeadingDigits, Level;
    blocks := [];
    NothingParsed(lines);
    var i := 0;
    while i < |lines|
      invariant i <= |lines| && Parses(lines, blocks, i)
    {
      var b := NextBlock(lines, i);
      CoversMore(lines, blocks, b);
      blocks := blocks + [b];
      i := b.hi;
    }
  }

  lemma NothingParsed(lines: seq<string>)
    ensures Parses(lines, [], 0)
  {
  }

  /** One pass of the outer loop. */
  method NextBlock(lines: seq<string>, start: nat) returns (b: Block)
    requires start < |lines|
    ensures b.lo == start && IsBlock(lines, b)
  {
    hide Strip, LeadingDigits, Level, IsSpace;
    var i, line := start, lines[start];
    if IsBlank(line) {
      return Block(Blank, start, i + 1);
    }
    if IsRule(line) {
      return Block(Rule, start, i + 1);
    }
    if Level(line) > 0 {
      return Block(Heading(Level(line)), start, i + 1);
    }
    if IsBullet(line) {
      i := Collect(lines, Bullets, i);
      return Block(Bullets, start, i);
    }
    if IsNumbered(line) {
      i := Collect(lines, Numbered, i);
      return Block(Numbered, start, i);
    }
    if OpensTable(line) {
      StripKeepsBar(line);
      i := Collect(lines, Table, i);
      if i - start >= 2 {
        return Block(Table, start, i);
      }
      i := start;
    }
    if IsFence(line) {
      i := Collect(lines, Code, i + 1);
      if i < |lines| {
        i := i + 1;
      }
      return Block(Code, start, i);
    }
    i := Collect(lines, Paragraph, i + 1);
    return Block(Paragraph, start, i);
  }
}
