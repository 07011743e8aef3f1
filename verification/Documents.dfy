/** Documents that are written block by block are parsed back into the same blocks. */
module Documents {
  import opened Markdown

  /** A text that neither begins nor ends with white space. */
  predicate Trimmed(t: string) {
    t != "" && !IsSpace(t[0]) && !IsSpace(t[|t| - 1])
  }

  predicate Letter(c: char) {
    'a' <= c <= 'z' || 'A' <= c <= 'Z'
  }

  /** A block of a document, by what it says. */
  datatype Piece =
    | Title(level: nat, text: string)
    | Ruler(dashes: bool)
    | Points(items: seq<string>, dashes: bool)
    | Steps(items: seq<string>)
    | Grid(rows: seq<string>)
    | Listing(code: seq<string>)
    | Prose(lines: seq<string>)

  predicate AllTrimmed(ts: seq<string>) {
    forall i | 0 <= i < |ts| :: Trimmed(ts[i])
  }

  predicate Proper(p: Piece) {
    match p
    case Title(level, text) => 1 <= level <= 3 && Trimmed(text)
    case Ruler(_) => true
    case Points(items, _) => items != [] && AllTrimmed(items)
    case Steps(items) => items != [] && AllTrimmed(items)
    case Grid(rows) => |rows| >= 2 && AllTrimmed(rows)
    case Listing(code) => forall i | 0 <= i < |code| :: '`' !in code[i]
    case Prose(lines) =>
      lines != [] && AllTrimmed(lines) && forall i | 0 <= i < |lines| :: Letter(lines[i][0]) && '|' !in lines[i]
  }

  function Marked(mark: string, ts: seq<string>): (r: seq<string>)
    ensures |r| == |ts| && forall i | 0 <= i < |ts| :: r[i] == mark + ts[i]
  {
    if ts == [] then [] else Marked(mark, ts[..|ts| - 1]) + [mark + ts[|ts| - 1]]
  }

  /** The lines in which a piece is written. */
  function Written(p: Piece): seq<string> {
    match p
    case Title(level, text) => [(if level == 1 then "# " else if level == 2 then "## " else "### ") + text]
    case Ruler(dashes) => [if dashes then "---" else "___"]
    case Points(items, dashes) => Marked(if dashes then "- " else "* ", items)
    case Steps(items) => Marked("1. ", items)
    case Grid(rows) => Marked("|", rows)
    case Listing(code) => ["```"] + code + ["```"]
    case Prose(lines) => lines
  }

  function KindOf(p: Piece): Kind {
    match p
    case Title(level, _) => Heading(level)
    case Ruler(_) => Rule
    case Points(_, _) => Bullets
    case Steps(_) => Numbered
    case Grid(_) => Table
    case Listing(_) => Code
    case Prose(_) => Paragraph
  }

  /** Pieces one after the other, each followed by an empty line. */
  function Document(ps: seq<Piece>): seq<string> {
    if ps == [] then [] else Document(ps[..|ps| - 1]) + Written(ps[|ps| - 1]) + [""]
  }

  /** The blocks that were meant. */
  function Meant(ps: seq<Piece>): seq<Block> {
    if ps == [] then []
    else
      var init, p := ps[..|ps| - 1], ps[|ps| - 1];
      var lo := |Document(init)|;
      var hi := lo + |Written(p)|;
      Meant(init) + [Block(KindOf(p), lo, hi)] + [Block(Blank, hi, hi + 1)]
  }

  // ----- what written lines are -----

  lemma StripsNothing(t: string)
    requires Trimmed(t)
    ensures Strip(t) == t
  {
  }

  lemma MarkStays(mark: string, t: string)
    requires mark != "" && !IsSpace(mark[0]) && Trimmed(t)
    ensures Strip(mark + t) == mark + t
  {
    assert (mark + t)[|mark + t| - 1] == t[|t| - 1];
    StripsNothing(mark + t);
  }

  lemma EmptyIsBlank()
    ensures IsBlank("") && !IsBullet("") && !IsNumbered("") && !IsRow("")
  {
  }

  lemma TitleIs(level: nat, text: string)
    requires 1 <= level <= 3 && Trimmed(text)
    ensures var line := Written(Title(level, text))[0];
      !IsBlank(line) && !IsRule(line) && Level(line) == level
  {
    var mark := if level == 1 then "# " else if level == 2 then "## " else "### ";
    MarkStays(mark, text);
    var s := mark + text;
    assert s[0] == '#' && s[1] == mark[1];
    assert level >= 2 ==> s[2] == mark[2];
    hide Strip, IsSpace;
    if Starts(s, "# ") {
      assert s[1] == "# "[1];
    }
    if Starts(s, "## ") {
      assert s[2] == "## "[2];
    }
    assert mark <= s;
  }

  lemma RulerIs()
    ensures !IsBlank("---") && IsRule("---") && !IsBlank("___") && IsRule("___")
  {
    StripsNothing("---");
    StripsNothing("___");
  }

  lemma PointIs(t: string, dashes: bool)
    requires Trimmed(t)
    ensures var line := (if dashes then "- " else "* ") + t;
      !IsBlank(line) && !IsRule(line) && Level(line) == 0 && IsBullet(line)
  {
    var mark := if dashes then "- " else "* ";
    MarkStays(mark, t);
    var s := mark + t;
    assert s[0] == mark[0] && s[1] == ' ';
    hide Strip, IsSpace;
    assert mark <= s;
    assert "---"[1] == '-' && "___"[0] == '_';
    NotAHeading(s);
  }

  /** Only what begins with a number sign is a heading. */
  lemma NotAHeading(s: string)
    requires s != "" && s[0] != '#'
    ensures !Starts(s, "# ") && !Starts(s, "## ") && !Starts(s, "### ")
  {
    assert "# "[0] == '#' && "## "[0] == '#' && "### "[0] == '#';
  }

  lemma NotABullet(s: string)
    requires s != "" && s[0] != '-' && s[0] != '*'
    ensures !Starts(s, "- ") && !Starts(s, "* ") && s != "---"
  {
    assert "- "[0] == '-' && "* "[0] == '*' && "---"[0] == '-';
  }

  lemma StepIs(t: string)
    requires Trimmed(t)
    ensures var line := "1. " + t;
      !IsBlank(line) && !IsRule(line) && Level(line) == 0 && !IsBullet(line) && IsNumbered(line)
  {
    MarkStays("1. ", t);
    var s := "1. " + t;
    assert s[0] == '1' && s[1] == '.' && s[2] == ' ';
    assert s[1..][0] == '.';
    assert LeadingDigits(s[1..]) == 0;
    assert LeadingDigits(s) == 1;
    hide Strip, LeadingDigits;
    NotAHeading(s);
    NotABullet(s);
    assert "___"[0] == '_';
  }

  lemma NotNumbered(s: string)
    requires s != "" && !('0' <= s[0] <= '9')
    ensures LeadingDigits(s) == 0
  {
  }

  lemma RowIs(t: string)
    requires Trimmed(t)
    ensures var line := "|" + t;
      && !IsBlank(line) && !IsRule(line) && Level(line) == 0 && !IsBullet(line) && !IsNumbered(line)
      && OpensTable(line) && IsRow(line)
  {
    MarkStays("|", t);
    var s := "|" + t;
    assert s[0] == '|' && "|" <= s;
    NotNumbered(s);
    hide Strip, IsSpace, LeadingDigits;
    NotAHeading(s);
    NotABullet(s);
    assert "___"[0] == '_';
  }

  lemma FenceIs()
    ensures var line := "```";
      && !IsBlank(line) && !IsRule(line) && Level(line) == 0 && !IsBullet(line) && !IsNumbered(line)
      && !OpensTable(line) && IsFence(line)
  {
    var s := "```";
    StripsNothing(s);
    NotNumbered(s);
    hide Strip, LeadingDigits, IsSpace;
    assert s[0] == '`';
    NotAHeading(s);
    NotABullet(s);
    assert "___"[0] == '_' && "|"[0] == '|';
  }

  lemma CodeIs(line: string)
    requires '`' !in line
    ensures !IsFence(line)
  {
    var l := StripLeft(line);
    StripLeftIsSuffix(line);
    assert "```"[0] == '`';
    assert Strip(line) != "" ==> Strip(line)[0] == l[0] && l[0] in line;
  }

  lemma ProseIs(line: string)
    requires Trimmed(line) && Letter(line[0]) && '|' !in line
    ensures !IsBlank(line) && !IsRule(line) && Level(line) == 0 && !IsBullet(line) && !IsNumbered(line)
    ensures !OpensTable(line) && !IsFence(line) && !IsSpecial(line)
  {
    StripsNothing(line);
    NotNumbered(line);
    hide Strip, LeadingDigits, IsSpace;
    NotAHeading(line);
    NotABullet(line);
    assert "___"[0] == '_' && "|"[0] == '|' && "```"[0] == '`' && "#"[0] == '#';
  }

  // ----- written pieces are blocks -----

  /** The lines `w` stand from line `n` on, and an empty line follows. */
  ghost predicate StandsAt(lines: seq<string>, n: nat, w: seq<string>) {
    && n + |w| < |lines| && lines[n + |w|] == "" && w != []
    && forall j | n <= j < n + |w| :: lines[j] == w[j - n]
  }

  ghost predicate Pointed(line: string) {
    !IsBlank(line) && !IsRule(line) && Level(line) == 0 && IsBullet(line)
  }

  ghost predicate Stepped(line: string) {
    !IsBlank(line) && !IsRule(line) && Level(line) == 0 && !IsBullet(line) && IsNumbered(line)
  }

  lemma PointedAre(lines: seq<string>, n: nat, hi: nat)
    requires n < hi < |lines| && lines[hi] == "" && forall j | n <= j < hi :: Pointed(lines[j])
    ensures IsBlock(lines, Block(Bullets, n, hi))
  {
    EmptyIsBlank();
    hide IsBlank, IsRule, Level, IsBullet;
  }

  lemma SteppedAre(lines: seq<string>, n: nat, hi: nat)
    requires n < hi < |lines| && lines[hi] == "" && forall j | n <= j < hi :: Stepped(lines[j])
    ensures IsBlock(lines, Block(Numbered, n, hi))
  {
    EmptyIsBlank();
    hide IsBlank, IsRule, Level, IsBullet, IsNumbered;
  }

  lemma PointsAre(lines: seq<string>, n: nat, items: seq<string>, dashes: bool)
    requires AllTrimmed(items) && StandsAt(lines, n, Marked(if dashes then "- " else "* ", items))
    ensures IsBlock(lines, Block(Bullets, n, n + |items|))
  {
    hide IsBlock, IsBlank, IsRule, Level, IsBullet;
    forall j | n <= j < n + |items| ensures Pointed(lines[j]) {
      PointIs(items[j - n], dashes);
    }
    PointedAre(lines, n, n + |items|);
  }

  lemma StepsAre(lines: seq<string>, n: nat, items: seq<string>)
    requires AllTrimmed(items) && StandsAt(lines, n, Marked("1. ", items))
    ensures IsBlock(lines, Block(Numbered, n, n + |items|))
  {
    hide IsBlock, IsBlank, IsRule, Level, IsBullet, IsNumbered;
    forall j | n <= j < n + |items| ensures Stepped(lines[j]) {
      StepIs(items[j - n]);
    }
    SteppedAre(lines, n, n + |items|);
  }

  lemma GridIs(lines: seq<string>, n: nat, rows: seq<string>)
    requires |rows| >= 2 && AllTrimmed(rows) && StandsAt(lines, n, Marked("|", rows))
    ensures IsBlock(lines, Block(Table, n, n + |rows|))
  {
    hide IsBlank, IsRule, Level, IsBullet, IsNumbered, OpensTable, IsRow, Trimmed;
    EmptyIsBlank();
    forall j | n <= j < n + |rows|
      ensures !IsBlank(lines[j]) && !IsRule(lines[j]) && Level(lines[j]) == 0 && !IsBullet(lines[j])
      ensures !IsNumbered(lines[j]) && OpensTable(lines[j]) && IsRow(lines[j])
    {
      RowIs(rows[j - n]);
    }
    assert IsRow(lines[n + 1]);
  }

  lemma ListingIs(lines: seq<string>, n: nat, code: seq<string>)
    requires (forall i | 0 <= i < |code| :: '`' !in code[i]) && StandsAt(lines, n, ["```"] + code + ["```"])
    ensures IsBlock(lines, Block(Code, n, n + |code| + 2))
  {
    hide IsBlank, IsRule, Level, IsBullet, IsNumbered, OpensTable, IsFence;
    FenceIs();
    var w := ["```"] + code + ["```"];
    forall j | n < j < n + |code| + 1 ensures !IsFence(lines[j]) {
      assert lines[j] == w[j - n] == code[j - n - 1];
      CodeIs(code[j - n - 1]);
    }
    assert lines[n] == w[0] && lines[n + |code| + 1] == w[|code| + 1];
  }

  lemma ProseStands(lines: seq<string>, n: nat, w: seq<string>)
    requires AllTrimmed(w) && (forall i | 0 <= i < |w| :: Letter(w[i][0]) && '|' !in w[i]) && StandsAt(lines, n, w)
    ensures IsBlock(lines, Block(Paragraph, n, n + |w|))
  {
    hide IsBlank, IsRule, Level, IsBullet, IsNumbered, OpensTable, IsFence, IsSpecial;
    EmptyIsBlank();
    forall j | n <= j < n + |w|
      ensures !IsBlank(lines[j]) && !IsRule(lines[j]) && Level(lines[j]) == 0 && !IsBullet(lines[j])
      ensures !IsNumbered(lines[j]) && !OpensTable(lines[j]) && !IsFence(lines[j]) && !IsSpecial(lines[j])
    {
      ProseIs(w[j - n]);
    }
  }

  lemma OneLineStands(lines: seq<string>, n: nat, p: Piece)
    requires (p.Title? || p.Ruler?) && Proper(p) && StandsAt(lines, n, Written(p))
    ensures IsBlock(lines, Block(KindOf(p), n, n + 1)) && |Written(p)| == 1
  {
    hide IsBlank, IsRule, Level;
    assert lines[n] == Written(p)[0];
    match p
    case Title(level, text) => TitleIs(level, text);
    case Ruler(_) => RulerIs();
  }

  lemma PieceIsBlock(lines: seq<string>, n: nat, p: Piece)
    requires Proper(p) && StandsAt(lines, n, Written(p))
    ensures IsBlock(lines, Block(KindOf(p), n, n + |Written(p)|))
  {
    hide IsBlock, StandsAt, AllTrimmed;
    match p
    case Points(items, dashes) => PointsAre(lines, n, items, dashes);
    case Steps(items) => StepsAre(lines, n, items);
    case Grid(rows) => GridIs(lines, n, rows);
    case Listing(code) => ListingIs(lines, n, code);
    case Prose(ls) => ProseStands(lines, n, ls);
    case _ => OneLineStands(lines, n, p);
  }

  /** A block that is followed by another line, or is blank, stays one when lines are added. */
  lemma BlockStays(lines: seq<string>, more: seq<string>, b: Block)
    requires IsBlock(lines, b) && lines <= more && (b.kind.Blank? || b.hi < |lines|)
    ensures IsBlock(more, b)
  {
    hide Strip, Level, LeadingDigits, IsBlank, IsRule, IsBullet, IsNumbered, IsRow, OpensTable, IsFence, IsSpecial;
    assert forall j | 0 <= j < |lines| :: more[j] == lines[j];
  }

  ghost predicate AllProper(ps: seq<Piece>) {
    forall i | 0 <= i < |ps| :: Proper(ps[i])
  }

  ghost predicate Inside(blocks: seq<Block>, n: nat) {
    forall i | 0 <= i < |blocks| :: blocks[i].kind.Blank? || blocks[i].hi < n
  }

  lemma BlocksStay(lines: seq<string>, more: seq<string>, blocks: seq<Block>)
    requires Parses(lines, blocks, |lines|) && Inside(blocks, |lines|) && lines <= more
    ensures Parses(more, blocks, |lines|)
  {
    hide IsBlock;
    forall i | 0 <= i < |blocks| ensures IsBlock(more, blocks[i]) {
      BlockStays(lines, more, blocks[i]);
    }
  }

  lemma NextStands(before: seq<string>, w: seq<string>)
    requires w != []
    ensures StandsAt(before + w + [""], |before|, w)
  {
  }

  lemma PieceHasLines(p: Piece)
    requires Proper(p)
    ensures Written(p) != []
  {
  }

  /** One more piece, which is written in the lines `w`. */
  lemma OneMorePiece(before: seq<string>, blocks: seq<Block>, w: seq<string>, k: Kind)
    requires Parses(before, blocks, |before|) && Inside(blocks, |before|)
    requires w != [] && IsBlock(before + w + [""], Block(k, |before|, |before| + |w|))
    ensures var lines, hi := before + w + [""], |before| + |w|;
      var more := blocks + [Block(k, |before|, hi)] + [Block(Blank, hi, hi + 1)];
      Parses(lines, more, |lines|) && Inside(more, |lines|)
  {
    hide IsBlock, IsBlank, Parses;
    var lines, hi := before + w + [""], |before| + |w|;
    BlocksStay(before, lines, blocks);
    BlankIsBlock(lines, hi);
    CoversMore(lines, blocks, Block(k, |before|, hi));
    CoversMore(lines, blocks + [Block(k, |before|, hi)], Block(Blank, hi, hi + 1));
  }

  lemma {:induction false} MeantParses(ps: seq<Piece>)
    requires AllProper(ps)
    ensures Parses(Document(ps), Meant(ps), |Document(ps)|) && Inside(Meant(ps), |Document(ps)|)
  {
    hide IsBlock, Written, KindOf, IsBlank, Proper, StandsAt;
    if ps != [] {
      hide Parses, Inside;
      var init, p := ps[..|ps| - 1], ps[|ps| - 1];
      MeantParses(init);
      PieceHasLines(p);
      NextStands(Document(init), Written(p));
      PieceIsBlock(Document(ps), |Document(init)|, p);
      OneMorePiece(Document(init), Meant(init), Written(p), KindOf(p));
    }
  }

  lemma BlankIsBlock(lines: seq<string>, n: nat)
    requires n < |lines| && lines[n] == ""
    ensures IsBlock(lines, Block(Blank, n, n + 1))
  {
  }

  /** Round trip: whatever is written as proper pieces is parsed back as exactly those blocks. */
  lemma DocumentsAreParsedBack(ps: seq<Piece>, blocks: seq<Block>)
    requires AllProper(ps) && Parses(Document(ps), blocks, |Document(ps)|)
    ensures blocks == Meant(ps)
  {
    MeantParses(ps);
    ParseIsUnique(Document(ps), blocks, Meant(ps));
  }
}
