/** What git prints for the files that differ, and what the gate reads of it.

  A path is the string of its bytes. Git prints a path that holds a quote, a backslash, a control
  character or a byte outside of ASCII in quotes, with those bytes escaped; the gate does not ask for
  anything else, and takes each line as a path.
 */
module Diffs {
  import opened Ordering
  import opened Folds
  import D = Documents

  // ---------------------------------------------------------------- one path

  predicate IsEscaped(c: char) {
    c < ' ' || c == '"' || c == '\\' || c > '~'
  }

  function Digit(n: nat): char
    requires n < 8
  {
    ('0' as int + n) as char
  }

  function Octal(c: char): string {
    ['\\', Digit(c as int / 64 % 8), Digit(c as int / 8 % 8), Digit(c as int % 8)]
  }

  function Escape(c: char): string {
    if !IsEscaped(c) then [c]
    else if c == '"' || c == '\\' then ['\\', c]
    else if c == '\U{07}' then "\\a"
    else if c == '\U{08}' then "\\b"
    else if c == '\t' then "\\t"
    else if c == '\n' then "\\n"
    else if c == '\U{0B}' then "\\v"
    else if c == '\U{0C}' then "\\f"
    else if c == '\r' then "\\r"
    else Octal(c)
  }

  function EscapeAll(p: string): string {
    if p == "" then "" else Escape(p[0]) + EscapeAll(p[1..])
  }

  predicate NeedsQuotes(p: string) {
    exists i :: 0 <= i < |p| && IsEscaped(p[i])
  }

  function Printed(p: string): string {
    if NeedsQuotes(p) then "\"" + EscapeAll(p) + "\"" else p
  }

  lemma {:induction false} EscapeHasNoNewline(c: char)
    ensures '\n' !in Escape(c)
  {
    if IsEscaped(c) {
      assert Digit(c as int / 64 % 8) != '\n' && Digit(c as int / 8 % 8) != '\n' && Digit(c as int % 8) != '\n';
    }
  }

  lemma {:induction false} EscapedHasNoNewline(p: string)
    ensures '\n' !in EscapeAll(p)
  {
    if p != "" {
      EscapeHasNoNewline(p[0]);
      EscapedHasNoNewline(p[1..]);
    }
  }

  lemma {:induction false} PrintedIsLine(p: string)
    ensures '\n' !in Printed(p)
  {
    if NeedsQuotes(p) {
      EscapedHasNoNewline(p);
    } else {
      assert forall i :: 0 <= i < |p| ==> !IsEscaped(p[i]);
    }
  }

  // ---------------------------------------------------------------- the listing

  /** Blanks as they are trimmed from either end of the output. */
  predicate IsSpace(c: char) {
    c == ' ' || ('\t' <= c <= '\r')
  }

  function TrimLeft(s: string): string {
    if s != "" && IsSpace(s[0]) then TrimLeft(s[1..]) else s
  }

  function TrimRight(s: string): string {
    if s != "" && IsSpace(s[|s| - 1]) then TrimRight(s[..|s| - 1]) else s
  }

  function Trim(s: string): string {
    TrimRight(TrimLeft(s))
  }

  /** Git ends each line with a newline. */
  function Output(paths: seq<string>): string {
    if paths == [] then "" else D.JoinLines(MapSeq(Printed, paths)) + "\n"
  }

  function NonEmpty(lines: seq<string>): seq<string> {
    if lines == [] then []
    else NonEmpty(lines[..|lines| - 1]) + if lines[|lines| - 1] != "" then [lines[|lines| - 1]] else []
  }

  /** What the gate makes of the output. */
  function ReadLines(out: string): seq<string> {
    NonEmpty(D.Lines(Trim(out)))
  }

  method ChangedFiles(out: string) returns (files: seq<string>)
    ensures SortedBy(files, StrLeq) && multiset(files) == multiset(ReadLines(out))
  {
    files := [];
    var lines := D.SplitLines(Trim(out));
    for i := 0 to |lines|
      invariant files == NonEmpty(lines[..i])
    {
      assert lines[..i + 1][..i] == lines[..i];
      if lines[i] != "" {
        files := files + [lines[i]];
      }
      assert NonEmpty(lines[..i]) + [] == NonEmpty(lines[..i]);
    }
    assert lines[..|lines|] == lines;
    StrOrder();
    files := Sort(files, StrLeq);
  }

  // ---------------------------------------------------------------- names that come through

  /** The name comes through as it is printed: it is there, and does not begin or end with a blank that
      is trimmed. */
  predicate Survives(p: string) {
    NeedsQuotes(p) || (p != "" && p[0] != ' ' && p[|p| - 1] != ' ')
  }

  /** The name comes through as it is. */
  predicate IsPlainName(p: string) {
    Survives(p) && !NeedsQuotes(p) && p[|p| - 1] != '/'
  }

  lemma {:induction false} PrintedEnds(p: string)
    requires Survives(p)
    ensures var s := Printed(p);
            s != "" && !IsSpace(s[0]) && !IsSpace(s[|s| - 1])
  {
    if !NeedsQuotes(p) {
      assert !IsEscaped(p[0]) && !IsEscaped(p[|p| - 1]);
    }
  }

  lemma {:induction false} JoinedEnds(ls: seq<string>)
    requires ls != [] && forall i :: 0 <= i < |ls| ==> ls[i] != ""
    ensures var s := D.JoinLines(ls);
            s != "" && s[0] == ls[0][0] && s[|s| - 1] == ls[|ls| - 1][|ls[|ls| - 1]| - 1]
  {
    if |ls| > 1 {
      JoinedEnds(ls[1..]);
      JoinKeepsEnds(ls[0], D.JoinLines(ls[1..]));
    }
  }

  lemma {:induction false} JoinKeepsEnds(a: string, b: string)
    requires a != "" && b != ""
    ensures var s := a + "\n" + b;
            s[0] == a[0] && s[|s| - 1] == b[|b| - 1]
  {
  }

  lemma {:induction false} TrimsNewline(s: string)
    requires s != "" && !IsSpace(s[0]) && !IsSpace(s[|s| - 1])
    ensures Trim(s + "\n") == s
  {
    var t := s + "\n";
    assert t[0] == s[0];
    assert TrimLeft(t) == t;
    assert t[|t| - 1] == '\n' && t[..|t| - 1] == s;
    assert TrimRight(t) == TrimRight(s);
  }

  lemma {:induction false} KeepsNonEmpty(ls: seq<string>)
    requires forall i :: 0 <= i < |ls| ==> ls[i] != ""
    ensures NonEmpty(ls) == ls
  {
    if ls != [] {
      KeepsNonEmpty(ls[..|ls| - 1]);
    }
  }

  /** The gate reads exactly what git printed for the names that come through. */
  lemma {:induction false} ListedAsPrinted(paths: seq<string>)
    requires forall i :: 0 <= i < |paths| ==> Survives(paths[i])
    ensures ReadLines(Output(paths)) == MapSeq(Printed, paths)
  {
    var ls := MapSeq(Printed, paths);
    if paths == [] {
      assert Trim("") == "";
      assert D.Lines("") == [""];
      assert [""][..0] == [];
    } else {
      forall i | 0 <= i < |ls|
        ensures ls[i] != "" && '\n' !in ls[i] && !IsSpace(ls[i][0]) && !IsSpace(ls[i][|ls[i]| - 1])
      {
        PrintedEnds(paths[i]);
        PrintedIsLine(paths[i]);
      }
      JoinedEnds(ls);
      TrimsNewline(D.JoinLines(ls));
      D.LinesOfJoined(ls);
      KeepsNonEmpty(ls);
    }
  }

  /** Names that need no quotes are read back as they are. */
  lemma {:induction false} ListedAsIs(paths: seq<string>)
    requires forall i :: 0 <= i < |paths| ==> IsPlainName(paths[i])
    ensures ReadLines(Output(paths)) == paths
  {
    ListedAsPrinted(paths);
    assert forall i :: 0 <= i < |paths| ==> Printed(paths[i]) == paths[i];
  }
}
