/** Splitting a YAML stream into its documents.

  A separator is a line of three hyphens, followed at most by blanks (section 9.1.2 of YAML
  1.2.2, restricted to markers without content). Bytes are characters here.
 */
module Documents {
  import opened Ordering
  import opened Folds

  type Line = string

  const SEPARATOR: Line := "---"

  // ---------------------------------------------------------------- lines

  /** The pieces between newlines; one more than there are newlines. */
  function Lines(raw: string): (ls: seq<Line>)
    ensures ls != []
    ensures forall i :: 0 <= i < |ls| ==> '\n' !in ls[i]
  {
    if raw == [] then [[]]
    else
      var rest := Lines(raw[1..]);
      if raw[0] == '\n' then [[]] + rest else [[raw[0]] + rest[0]] + rest[1..]
  }

  function JoinLines(ls: seq<Line>): string {
    if ls == [] then []
    else if |ls| == 1 then ls[0]
    else ls[0] + "\n" + JoinLines(ls[1..])
  }

  lemma {:induction false} LinesOfLine(line: Line)
    requires '\n' !in line
    ensures Lines(line) == [line]
  {
    if line != [] {
      assert '\n' !in line[1..];
      LinesOfLine(line[1..]);
      assert line == [line[0]] + line[1..];
    }
  }

  lemma {:induction false} LinesConcat(a: string, b: string)
    ensures Lines(a + "\n" + b) == Lines(a) + Lines(b)
  {
    var s := a + "\n" + b;
    if a == [] {
      assert s[1..] == b;
    } else {
      assert s[1..] == a[1..] + "\n" + b && s[0] == a[0];
      LinesConcat(a[1..], b);
      Prefixed([], Lines(a[1..]), Lines(b));
      Prefixed([a[0]], Lines(a[1..]), Lines(b));
    }
  }

  /** Lines put in front of a text, or its first line extended, leave what follows alone. */
  lemma {:induction false} Prefixed(start: Line, la: seq<Line>, lb: seq<Line>)
    requires la != []
    ensures [start] + (la + lb) == ([start] + la) + lb
    ensures [start + (la + lb)[0]] + (la + lb)[1..] == ([start + la[0]] + la[1..]) + lb
  {
  }

  /** Splitting into lines undoes joining them. */
  lemma {:induction false} LinesOfJoined(ls: seq<Line>)
    requires ls != [] && forall i :: 0 <= i < |ls| ==> '\n' !in ls[i]
    ensures Lines(JoinLines(ls)) == ls
  {
    LinesOfLine(ls[0]);
    if |ls| > 1 {
      LinesOfJoined(ls[1..]);
      LinesConcat(ls[0], JoinLines(ls[1..]));
      assert ls == [ls[0]] + ls[1..];
    }
  }

  /** And joining the lines of a stream gives the stream back. */
  lemma {:induction false} JoinedLines(raw: string)
    ensures JoinLines(Lines(raw)) == raw
  {
    if raw != [] {
      JoinedLines(raw[1..]);
      var rest := Lines(raw[1..]);
      assert raw == [raw[0]] + raw[1..];
      if raw[0] == '\n' {
        assert ([[]] + rest)[1..] == rest;
      } else {
        var ls := [[raw[0]] + rest[0]] + rest[1..];
        assert ls[1..] == rest[1..];
        assert [raw[0]] + (rest[0] + "\n" + JoinLines(rest[1..])) == ([raw[0]] + rest[0]) + "\n" + JoinLines(rest[1..]);
      }
    }
  }

  // ---------------------------------------------------------------- separators

  predicate IsBlank(c: char) {
    c == ' ' || c == '\t' || c == '\r'
  }

  function TrimRight(line: Line): Line {
    if line != [] && IsBlank(line[|line| - 1]) then TrimRight(line[..|line| - 1]) else line
  }

  predicate IsSeparator(line: Line) {
    && TrimRight(line) == SEPARATOR
    && !(" " <= line) && !("\t" <= line)
  }

  predicate AllBlank(s: string) {
    forall i :: 0 <= i < |s| ==> IsBlank(s[i])
  }

  lemma {:induction false} TrimRightDrops(line: Line)
    ensures TrimRight(line) <= line && AllBlank(line[|TrimRight(line)|..])
    ensures TrimRight(line) != [] ==> !IsBlank(TrimRight(line)[|TrimRight(line)| - 1])
  {
    if line != [] && IsBlank(line[|line| - 1]) {
      TrimRightDrops(line[..|line| - 1]);
    }
  }

  lemma {:induction false} TrimRightKeeps(s: string, blanks: string)
    requires AllBlank(blanks) && s != [] && !IsBlank(s[|s| - 1])
    ensures TrimRight(s + blanks) == s
  {
    var line := s + blanks;
    if blanks != [] {
      assert line[..|line| - 1] == s + blanks[..|blanks| - 1];
      TrimRightKeeps(s, blanks[..|blanks| - 1]);
    } else {
      assert line == s;
    }
  }

  /** A separator is exactly three hyphens at the start of a line with nothing but blanks after. */
  lemma {:induction false} SeparatorExactly(line: Line)
    ensures IsSeparator(line) <==> SEPARATOR <= line && AllBlank(line[|SEPARATOR|..])
  {
    TrimRightDrops(line);
    if SEPARATOR <= line && AllBlank(line[|SEPARATOR|..]) {
      TrimRightKeeps(SEPARATOR, line[|SEPARATOR|..]);
      assert line == SEPARATOR + line[|SEPARATOR|..];
      assert line[0] == '-';
    }
  }

  // ---------------------------------------------------------------- documents

  type Group = seq<Line>

  /** Adds a line to the last group, or starts a new group at a separator. */
  function Extend(gs: seq<Group>, line: Line): (r: seq<Group>)
    requires gs != []
    ensures r != []
  {
    if IsSeparator(line) then gs + [[]] else gs[..|gs| - 1] + [gs[|gs| - 1] + [line]]
  }

  /** The lines between separators, one group more than there are separators. */
  function Groups(lines: seq<Line>): (gs: seq<Group>)
    ensures gs != []
  {
    if lines == [] then [[]] else Extend(Groups(lines[..|lines| - 1]), lines[|lines| - 1])
  }

  function Documents(raw: string): seq<string> {
    MapSeq(JoinLines, Groups(Lines(raw)))
  }

  method SplitLines(raw: string) returns (lines: seq<Line>)
    ensures lines == Lines(raw)
  {
    lines := [[]];
    var i := |raw|;
    while i > 0
      invariant 0 <= i <= |raw|
      invariant lines == Lines(raw[i..])
    {
      i := i - 1;
      assert raw[i..][1..] == raw[i + 1..];
      if raw[i] == '\n' {
        lines := [[]] + lines;
      } else {
        lines := [[raw[i]] + lines[0]] + lines[1..];
      }
    }
    assert raw[0..] == raw;
  }

  /** The finished documents and the one being gathered. */
  ghost predicate SoFar(lines: seq<Line>, docs: seq<string>, current: Group) {
    var gs := Groups(lines);
    current == gs[|gs| - 1] && docs == MapSeq(JoinLines, gs[..|gs| - 1])
  }

  lemma {:induction false} NoneSoFar()
    ensures SoFar([], [], [])
  {
  }

  lemma {:induction false} OneMoreLine(lines: seq<Line>, docs: seq<string>, current: Group, line: Line)
    requires SoFar(lines, docs, current)
    ensures if IsSeparator(line)
            then SoFar(lines + [line], docs + [JoinLines(current)], [])
            else SoFar(lines + [line], docs, current + [line])
  {
    var gs := Groups(lines);
    assert (lines + [line])[..|lines|] == lines;
    if IsSeparator(line) {
      assert gs == gs[..|gs| - 1] + [current];
      MapStep(JoinLines, gs[..|gs| - 1], current);
      assert (gs + [[]])[..|gs|] == gs;
    } else {
      assert (gs[..|gs| - 1] + [current + [line]])[..|gs| - 1] == gs[..|gs| - 1];
    }
  }

  lemma {:induction false} LastDocument(lines: seq<Line>, docs: seq<string>, current: Group)
    requires SoFar(lines, docs, current)
    ensures docs + [JoinLines(current)] == MapSeq(JoinLines, Groups(lines))
  {
    var gs := Groups(lines);
    assert gs == gs[..|gs| - 1] + [current];
    MapStep(JoinLines, gs[..|gs| - 1], current);
  }

  method SplitDocuments(raw: string) returns (docs: seq<string>)
    ensures docs == Documents(raw)
  {
    var lines := SplitLines(raw);
    docs := [];
    var current := [];
    NoneSoFar();
    for i := 0 to |lines|
      invariant SoFar(lines[..i], docs, current)
    {
      OneMoreLine(lines[..i], docs, current, lines[i]);
      assert lines[..i + 1] == lines[..i] + [lines[i]];
      if IsSeparator(lines[i]) {
        docs := docs + [JoinLines(current)];
        current := [];
      } else {
        current := current + [lines[i]];
      }
    }
    assert lines[..|lines|] == lines;
    LastDocument(lines, docs, current);
    docs := docs + [JoinLines(current)];
  }

  function Separators(lines: seq<Line>): nat {
    if lines == [] then 0
    else Separators(lines[..|lines| - 1]) + if IsSeparator(lines[|lines| - 1]) then 1 else 0
  }

  predicate HasNoSeparator(lines: seq<Line>) {
    forall i :: 0 <= i < |lines| ==> !IsSeparator(lines[i])
  }

  function Content(lines: seq<Line>): seq<Line> {
    if lines == [] then []
    else Content(lines[..|lines| - 1]) + if IsSeparator(lines[|lines| - 1]) then [] else [lines[|lines| - 1]]
  }

  function Flatten(gs: seq<seq<Line>>): seq<Line> {
    if gs == [] then [] else Flatten(gs[..|gs| - 1]) + gs[|gs| - 1]
  }

  lemma {:induction false} FlattenStep(gs: seq<seq<Line>>, g: seq<Line>)
    ensures Flatten(gs + [g]) == Flatten(gs) + g
  {
    assert (gs + [g])[..|gs|] == gs;
  }

  lemma {:induction false} ExtendContent(gs: seq<Group>, line: Line)
    requires gs != []
    ensures Flatten(Extend(gs, line)) == Flatten(gs) + if IsSeparator(line) then [] else [line]
  {
    var before, current := gs[..|gs| - 1], gs[|gs| - 1];
    assert gs == before + [current];
    FlattenStep(before, current);
    if IsSeparator(line) {
      FlattenStep(gs, []);
    } else {
      FlattenStep(before, current + [line]);
      assert Flatten(before) + (current + [line]) == (Flatten(before) + current) + [line];
    }
  }

  /** Each group is made of content lines of the stream. */
  ghost predicate Contained(gs: seq<Group>, lines: seq<Line>) {
    forall i, j :: 0 <= i < |gs| && 0 <= j < |gs[i]| ==> gs[i][j] in lines && !IsSeparator(gs[i][j])
  }

  lemma {:induction false} ExtendContained(gs: seq<Group>, lines: seq<Line>, line: Line)
    requires gs != [] && Contained(gs, lines)
    ensures Contained(Extend(gs, line), lines + [line])
  {
  }

  /** The groups hold the content lines, all of them and in order, and no separator. */
  lemma {:induction false} GroupsHoldContent(lines: seq<Line>)
    ensures |Groups(lines)| == Separators(lines) + 1
    ensures Flatten(Groups(lines)) == Content(lines)
    ensures Contained(Groups(lines), lines)
  {
    if lines != [] {
      var front, last := lines[..|lines| - 1], lines[|lines| - 1];
      assert lines == front + [last];
      GroupsHoldContent(front);
      ExtendContent(Groups(front), last);
      ExtendContained(Groups(front), front, last);
    } else {
      var none: seq<Group> := [];
      FlattenStep(none, []);
      assert none + [[]] == [[]];
    }
  }

  lemma {:induction false} GroupHasNoSeparator(g: Group)
    requires forall j :: 0 <= j < |g| ==> '\n' !in g[j] && !IsSeparator(g[j])
    ensures HasNoSeparator(Lines(JoinLines(g)))
  {
    if g == [] {
      assert Lines([]) == [[]];
      SeparatorExactly([]);
    } else {
      LinesOfJoined(g);
    }
  }

  /** Every stream splits into one document more than it has separators, none of which contains
      a separator line, and between them they keep every other line. */
  lemma {:induction false} DocumentsAreSeparated(raw: string)
    ensures |Documents(raw)| == Separators(Lines(raw)) + 1
    ensures forall i :: 0 <= i < |Documents(raw)| ==> HasNoSeparator(Lines(Documents(raw)[i]))
    ensures Flatten(Groups(Lines(raw))) == Content(Lines(raw))
  {
    var lines := Lines(raw);
    var gs := Groups(lines);
    GroupsHoldContent(lines);
    forall i | 0 <= i < |gs| ensures HasNoSeparator(Lines(JoinLines(gs[i]))) {
      forall j | 0 <= j < |gs[i]| ensures '\n' !in gs[i][j] && !IsSeparator(gs[i][j]) {
        assert gs[i][j] in lines;
      }
      GroupHasNoSeparator(gs[i]);
    }
  }

  // ---------------------------------------------------------------- splitting undoes joining

  function JoinDocuments(docs: seq<string>): string {
    if docs == [] then []
    else if |docs| == 1 then docs[0]
    else docs[0] + "\n" + (SEPARATOR + "\n" + JoinDocuments(docs[1..]))
  }

  lemma {:induction false} GroupsWithoutSeparator(lines: seq<Line>)
    requires HasNoSeparator(lines)
    ensures Groups(lines) == [lines]
  {
    if lines != [] {
      GroupsWithoutSeparator(lines[..|lines| - 1]);
      assert lines == lines[..|lines| - 1] + [lines[|lines| - 1]];
    }
  }

  lemma {:induction false} ExtendConcat(ga: seq<Group>, gb: seq<Group>, line: Line)
    requires gb != []
    ensures Extend(ga + gb, line) == ga + Extend(gb, line)
  {
    if IsSeparator(line) {
      assert (ga + gb) + [[]] == ga + (gb + [[]]);
    } else {
      assert (ga + gb)[..|ga + gb| - 1] == ga + gb[..|gb| - 1];
    }
  }

  lemma {:induction false} GroupsConcat(a: seq<Line>, b: seq<Line>)
    ensures Groups(a + [SEPARATOR] + b) == Groups(a) + Groups(b)
  {
    var all := a + [SEPARATOR] + b;
    if b == [] {
      SeparatorExactly(SEPARATOR);
      assert all == a + [SEPARATOR];
      GroupsStep(a, SEPARATOR);
      assert Groups(b) == [[]];
    } else {
      var front, last := b[..|b| - 1], b[|b| - 1];
      assert b == front + [last];
      assert all == (a + [SEPARATOR] + front) + [last];
      GroupsConcat(a, front);
      GroupsStep(a + [SEPARATOR] + front, last);
      GroupsStep(front, last);
      ExtendConcat(Groups(a), Groups(front), last);
    }
  }

  lemma {:induction false} GroupsStep(lines: seq<Line>, line: Line)
    ensures Groups(lines + [line]) == Extend(Groups(lines), line)
  {
    assert (lines + [line])[..|lines|] == lines;
  }

  /** The lines of two documents with a separator between them. */
  lemma {:induction false} LinesOfPair(first: string, rest: string)
    ensures Lines(first + "\n" + (SEPARATOR + "\n" + rest)) == Lines(first) + [SEPARATOR] + Lines(rest)
  {
    LinesConcat(first, SEPARATOR + "\n" + rest);
    LinesConcat(SEPARATOR, rest);
    LinesOfLine(SEPARATOR);
    assert Lines(first) + ([SEPARATOR] + Lines(rest)) == Lines(first) + [SEPARATOR] + Lines(rest);
  }

  lemma {:induction false} SingleDocument(doc: string)
    requires HasNoSeparator(Lines(doc))
    ensures Groups(Lines(doc)) == [Lines(doc)] && MapSeq(JoinLines, [Lines(doc)]) == [doc]
  {
    GroupsWithoutSeparator(Lines(doc));
    JoinedLines(doc);
  }

  lemma {:induction false} FirstDocument(doc: string, rest: string)
    requires HasNoSeparator(Lines(doc))
    ensures Documents(doc + "\n" + (SEPARATOR + "\n" + rest)) == [doc] + Documents(rest)
  {
    SingleDocument(doc);
    LinesOfPair(doc, rest);
    GroupsConcat(Lines(doc), Lines(rest));
    MapConcat(JoinLines, [Lines(doc)], Groups(Lines(rest)));
  }

  /** Documents that contain no separator line survive being joined and split again. */
  lemma {:induction false} SplitUndoesJoin(docs: seq<string>)
    requires docs != [] && forall i :: 0 <= i < |docs| ==> HasNoSeparator(Lines(docs[i]))
    ensures Documents(JoinDocuments(docs)) == docs
  {
    FrontFirst(docs);
    if |docs| == 1 {
      SingleDocument(docs[0]);
    } else {
      SplitUndoesJoin(docs[1..]);
      FirstDocument(docs[0], JoinDocuments(docs[1..]));
    }
  }
}
