/** Rewriting the image digests that manifests pin.

  One line-based program reads the digest pinned for an image and another writes a new one. They
  form a lens over the lines of a manifest: what is written is read back, a second write wins over
  the first, and nothing but the digest lines of that image moves. A line is a string without its
  newline; fields are the runs of characters between blanks.
 */
module Digests {
  type Line = string

  // ---------------------------------------------------------------- fields

  predicate IsBlank(c: char) {
    c == ' ' || c == '\t'
  }

  predicate IsSolid(c: char) {
    !IsBlank(c)
  }

  predicate All(s: string, p: char -> bool) {
    forall i :: 0 <= i < |s| ==> p(s[i])
  }

  /** The longest prefix of such characters. */
  function Span(s: string, p: char -> bool): (run: string)
    ensures run <= s && All(run, p)
    ensures |run| < |s| ==> !p(s[|run|])
  {
    if s != [] && p(s[0]) then [s[0]] + Span(s[1..], p) else []
  }

  function Past(s: string, p: char -> bool): (rest: string)
    ensures s == Span(s, p) + rest
    ensures rest == [] || !p(rest[0])
  {
    s[|Span(s, p)|..]
  }

  lemma {:induction false} TailOfConcat(a: string, b: string)
    requires a != ""
    ensures (a + b)[1..] == a[1..] + b && (a + b)[0] == a[0]
  {
  }

  lemma {:induction false} SpanOf(run: string, rest: string, p: char -> bool)
    requires All(run, p) && (rest == [] || !p(rest[0]))
    ensures Span(run + rest, p) == run && Past(run + rest, p) == rest
  {
    if run == [] {
      assert run + rest == rest;
    } else {
      TailOfConcat(run, rest);
      SpanOf(run[1..], rest, p);
    }
  }

  lemma {:induction false} Shift(a: string, b: string, c: string, d: string)
    ensures a + (b + (c + d)) == a + b + c + d
  {
  }

  /** The fields of a line are the solid runs between its blanks. */
  function First(line: Line): string {
    Span(Past(line, IsBlank), IsSolid)
  }

  function Second(line: Line): string {
    Span(Past(Past(Past(line, IsBlank), IsSolid), IsBlank), IsSolid)
  }

  // ---------------------------------------------------------------- substitution

  const PIN: string := "sha256:"

  predicate IsHex(c: char) {
    '0' <= c <= '9' || 'a' <= c <= 'f'
  }

  /** A replacement text with every ampersand standing for what was matched. */
  function Expand(d: string, matched: string): string {
    if d == [] then [] else (if d[0] == '&' then matched else [d[0]]) + Expand(d[1..], matched)
  }

  lemma {:induction false} ExpandIsLiteral(d: string, matched: string)
    requires |matched| > 1
    ensures Expand(d, matched) == d <==> '&' !in d
    ensures |Expand(d, matched)| >= |d|
    ensures '&' in d ==> |Expand(d, matched)| > |d|
  {
    if d != [] {
      ExpandIsLiteral(d[1..], matched);
      assert d == [d[0]] + d[1..];
    }
  }

  lemma {:induction false} ExpandIsSolid(d: string, matched: string)
    requires All(d, IsSolid) && All(matched, IsSolid)
    ensures All(Expand(d, matched), IsSolid)
  {
    if d != [] {
      ExpandIsSolid(d[1..], matched);
    }
  }

  /** Replaces the leftmost pin, prefix and longest run of hexadecimal digits, in a line. */
  function Substitute(line: Line, d: string): Line {
    if PIN <= line then
      var after := line[|PIN|..];
      Expand(d, PIN + Span(after, IsHex)) + Past(after, IsHex)
    else if line == [] then []
    else [line[0]] + Substitute(line[1..], d)
  }

  const KEY: string := "digest:"

  /** No pin begins in the text: each `s` has a successor other than `h`. */
  predicate PinFree(text: string) {
    forall k :: 0 <= k < |text| && text[k] == 's' ==> k + 1 < |text| && text[k + 1] != 'h'
  }

  lemma {:induction false} PassOne(line: Line, d: string)
    requires line != [] && !(PIN <= line)
    ensures Substitute(line, d) == [line[0]] + Substitute(line[1..], d)
  {
  }

  /** Text in which no pin begins is passed over. */
  lemma {:induction false} SubstitutePasses(text: string, rest: string, d: string)
    requires PinFree(text)
    ensures Substitute(text + rest, d) == text + Substitute(rest, d)
  {
    if text == [] {
      assert text + rest == rest;
    } else {
      NoPinAhead(text, rest);
      PassOne(text + rest, d);
      assert (text + rest)[1..] == text[1..] + rest;
      SubstitutePasses(text[1..], rest, d);
      assert [text[0]] + (text[1..] + Substitute(rest, d)) == text + Substitute(rest, d);
    }
  }

  lemma {:induction false} NoPinAhead(text: string, rest: string)
    requires text != [] && PinFree(text)
    ensures !(PIN <= text + rest) && PinFree(text[1..])
  {
    var line := text + rest;
    assert PIN[0] == 's' && PIN[1] == 'h';
    assert line[0] == text[0] && (|text| > 1 ==> line[1] == text[1]);
  }

  // ---------------------------------------------------------------- reader and writer

  predicate IsName(line: Line, image: string) {
    First(line) == "newName:" && Second(line) == image
  }

  predicate IsPinLine(line: Line) {
    First(line) == KEY
  }

  function ReadFrom(lines: seq<Line>, image: string, found: bool): string {
    if lines == [] then ""
    else if IsName(lines[0], image) then ReadFrom(lines[1..], image, true)
    else if found && IsPinLine(lines[0]) then Second(lines[0])
    else ReadFrom(lines[1..], image, found)
  }

  function Read(lines: seq<Line>, image: string): string {
    ReadFrom(lines, image, false)
  }

  function WriteFrom(lines: seq<Line>, image: string, d: string, found: bool): seq<Line> {
    if lines == [] then []
    else
      var open := found || IsName(lines[0], image);
      if open && IsPinLine(lines[0])
      then [Substitute(lines[0], d)] + WriteFrom(lines[1..], image, d, false)
      else [lines[0]] + WriteFrom(lines[1..], image, d, open)
  }

  function Write(lines: seq<Line>, image: string, d: string): seq<Line> {
    WriteFrom(lines, image, d, false)
  }

  method ReadPinned(lines: seq<Line>, image: string) returns (pinned: string)
    ensures pinned == Read(lines, image)
  {
    var found := false;
    for i := 0 to |lines|
      invariant Read(lines, image) == ReadFrom(lines[i..], image, found)
    {
      assert lines[i..][0] == lines[i] && lines[i..][1..] == lines[i + 1..];
      if IsName(lines[i], image) {
        found := true;
        continue;
      }
      if found && IsPinLine(lines[i]) {
        return Second(lines[i]);
      }
    }
    pinned := "";
  }

  lemma {:induction false} AppendThen(a: seq<Line>, line: Line, b: seq<Line>)
    ensures a + ([line] + b) == (a + [line]) + b
  {
  }

  method WritePinned(lines: seq<Line>, image: string, d: string) returns (out: seq<Line>)
    ensures out == Write(lines, image, d)
  {
    out := [];
    var found := false;
    for i := 0 to |lines|
      invariant Write(lines, image, d) == out + WriteFrom(lines[i..], image, d, found)
    {
      assert lines[i..][0] == lines[i] && lines[i..][1..] == lines[i + 1..];
      ghost var before := out;
      var line := lines[i];
      if IsName(line, image) {
        found := true;
      }
      if found && IsPinLine(line) {
        line := Substitute(line, d);
        found := false;
      }
      out := out + [line];
      AppendThen(before, line, WriteFrom(lines[i + 1..], image, d, found));
    }
  }

  // ---------------------------------------------------------------- which lines are the image's

  predicate NoPinLine(lines: seq<Line>) {
    forall i :: 0 <= i < |lines| ==> !IsPinLine(lines[i])
  }

  /** A line naming the image stands before line `i` with no digest line between them. */
  predicate Waiting(lines: seq<Line>, image: string, i: nat)
    requires i <= |lines|
  {
    exists j :: 0 <= j < i && IsName(lines[j], image) && NoPinLine(lines[j..i])
  }

  /** Line `i` is the first digest line after one naming the image. */
  predicate Targeted(lines: seq<Line>, image: string, i: nat) {
    i < |lines| && IsPinLine(lines[i]) && Waiting(lines, image, i)
  }

  predicate FlagAt(lines: seq<Line>, image: string, found: bool, i: nat)
    requires i <= |lines|
  {
    Waiting(lines, image, i) || (found && NoPinLine(lines[..i]))
  }

  lemma {:induction false} NoPinCons(lines: seq<Line>)
    requires lines != []
    ensures NoPinLine(lines) <==> !IsPinLine(lines[0]) && NoPinLine(lines[1..])
  {
    if !IsPinLine(lines[0]) && NoPinLine(lines[1..]) {
      forall i | 0 < i < |lines| ensures !IsPinLine(lines[i]) {
        assert lines[i] == lines[1..][i - 1];
      }
    }
  }

  /** Whether some line naming the image, among the first `i`, is followed by no digest line. */
  lemma {:induction false} WaitingStep(lines: seq<Line>, image: string, i: nat)
    requires 0 < i <= |lines|
    ensures Waiting(lines, image, i) <==>
            Waiting(lines[1..], image, i - 1) || (IsName(lines[0], image) && NoPinLine(lines[..i]))
  {
    var rest := lines[1..];
    forall j | 0 < j < i ensures NoPinLine(lines[j..i]) <==> NoPinLine(rest[j - 1..i - 1]) {
      assert rest[j - 1..i - 1] == lines[j..i];
    }
    assert forall j :: 0 < j < i ==> rest[j - 1] == lines[j];
    assert lines[0..i] == lines[..i];
    if Waiting(rest, image, i - 1) {
      var j :| 0 <= j < i - 1 && IsName(rest[j], image) && NoPinLine(rest[j..i - 1]);
      assert IsName(lines[j + 1], image) && NoPinLine(lines[j + 1..i]);
    }
  }

  /** The flag as one line moves from ahead of the position to behind it. */
  lemma {:induction false} FlagStep(lines: seq<Line>, image: string, found: bool, i: nat)
    requires 0 < i <= |lines|
    ensures FlagAt(lines, image, found, i) <==>
            FlagAt(lines[1..], image, !IsPinLine(lines[0]) && (found || IsName(lines[0], image)), i - 1)
  {
    WaitingStep(lines, image, i);
    NoPinCons(lines[..i]);
    assert lines[..i][1..] == lines[1..][..i - 1];
  }

  lemma {:induction false} WriteStep(lines: seq<Line>, image: string, d: string, found: bool)
    requires lines != []
    ensures var open := found || IsName(lines[0], image);
            WriteFrom(lines, image, d, found) ==
            [if IsPinLine(lines[0]) && found then Substitute(lines[0], d) else lines[0]]
            + WriteFrom(lines[1..], image, d, !IsPinLine(lines[0]) && open)
  {
    assert IsName(lines[0], image) ==> !IsPinLine(lines[0]);
  }

  lemma {:induction false} WriteFromAt(lines: seq<Line>, image: string, d: string, found: bool, i: nat)
    requires i < |lines|
    ensures |WriteFrom(lines, image, d, found)| == |lines|
    ensures WriteFrom(lines, image, d, found)[i] ==
            if IsPinLine(lines[i]) && FlagAt(lines, image, found, i) then Substitute(lines[i], d) else lines[i]
  {
    var next := !IsPinLine(lines[0]) && (found || IsName(lines[0], image));
    WriteStep(lines, image, d, found);
    if i > 0 {
      WriteFromAt(lines[1..], image, d, next, i - 1);
      FlagStep(lines, image, found, i);
    } else {
      WriteLength(lines[1..], image, d, next);
    }
  }

  lemma {:induction false} WriteLength(lines: seq<Line>, image: string, d: string, found: bool)
    ensures |WriteFrom(lines, image, d, found)| == |lines|
  {
    if lines != [] {
      WriteStep(lines, image, d, found);
      WriteLength(lines[1..], image, d, !IsPinLine(lines[0]) && (found || IsName(lines[0], image)));
    }
  }

  /** The writer keeps the number of lines and changes exactly the first digest line after each line
      naming the image, by replacing its pin. */
  lemma {:induction false} WriteTouchesOnlyTargets(lines: seq<Line>, image: string, d: string)
    ensures |Write(lines, image, d)| == |lines|
    ensures forall i :: 0 <= i < |lines| ==>
              Write(lines, image, d)[i] ==
              if Targeted(lines, image, i) then Substitute(lines[i], d) else lines[i]
  {
    WriteLength(lines, image, d, false);
    forall i | 0 <= i < |lines|
      ensures Write(lines, image, d)[i] ==
              if Targeted(lines, image, i) then Substitute(lines[i], d) else lines[i]
    {
      WriteFromAt(lines, image, d, false, i);
    }
  }

  lemma {:induction false} ReadStep(lines: seq<Line>, image: string, found: bool)
    requires lines != [] && !(IsPinLine(lines[0]) && found)
    ensures ReadFrom(lines, image, found)
            == ReadFrom(lines[1..], image, !IsPinLine(lines[0]) && (found || IsName(lines[0], image)))
  {
  }

  /** The reader answers with the line when it comes to it. */
  predicate Answers(lines: seq<Line>, image: string, found: bool, i: nat) {
    i < |lines| && IsPinLine(lines[i]) && FlagAt(lines, image, found, i)
  }

  lemma {:induction false} AnswersStep(lines: seq<Line>, image: string, found: bool, i: nat)
    requires 0 < i <= |lines|
    ensures Answers(lines, image, found, i) <==>
            Answers(lines[1..], image, !IsPinLine(lines[0]) && (found || IsName(lines[0], image)), i - 1)
  {
    FlagStep(lines, image, found, i);
  }

  lemma {:induction false} AnswersHere(lines: seq<Line>, image: string, found: bool)
    requires lines != []
    ensures Answers(lines, image, found, 0) <==> IsPinLine(lines[0]) && found
    ensures Answers(lines, image, found, 0) ==> ReadFrom(lines, image, found) == Second(lines[0])
  {
  }

  lemma {:induction false} ReadFromAt(lines: seq<Line>, image: string, found: bool, i: nat)
    requires Answers(lines, image, found, i) && forall j :: 0 <= j < i ==> !Answers(lines, image, found, j)
    ensures ReadFrom(lines, image, found) == Second(lines[i])
  {
    AnswersHere(lines, image, found);
    if i > 0 {
      var open := !IsPinLine(lines[0]) && (found || IsName(lines[0], image));
      ReadStep(lines, image, found);
      AnswersStep(lines, image, found, i);
      forall j | 0 <= j < i - 1 ensures !Answers(lines[1..], image, open, j) {
        AnswersStep(lines, image, found, j + 1);
      }
      ReadFromAt(lines[1..], image, open, i - 1);
    }
  }

  predicate FirstTarget(lines: seq<Line>, image: string, i: nat) {
    Targeted(lines, image, i) && forall j :: 0 <= j < i ==> !Targeted(lines, image, j)
  }

  /** The reader answers with the second field of the first such line. */
  lemma {:induction false} ReadsFirstTarget(lines: seq<Line>, image: string, i: nat)
    requires FirstTarget(lines, image, i)
    ensures Read(lines, image) == Second(lines[i])
  {
    forall j | 0 <= j < i ensures !Answers(lines, image, false, j) {
      assert !Targeted(lines, image, j);
    }
    ReadFromAt(lines, image, false, i);
  }

  // ---------------------------------------------------------------- one digest line

  predicate IsPin(s: string) {
    PIN <= s && All(s[|PIN|..], IsHex)
  }

  /** A digest as the registry writes it. */
  predicate IsDigest(d: string) {
    |d| == 71 && IsPin(d)
  }

  /** What the script accepts: only the first character after the prefix is examined. */
  predicate Usable(d: string) {
    PIN <= d && |d| == 71 && IsHex(d[|PIN|])
  }

  /** A digest line whose second field is a pin and nothing else. */
  predicate Pinned(line: Line) {
    IsPinLine(line) && IsPin(Second(line))
  }

  lemma {:induction false} PinChars(d: string)
    requires IsPin(d)
    ensures '&' !in d && All(d, IsSolid)
  {
    assert d == d[..|PIN|] + d[|PIN|..] && d[..|PIN|] == PIN;
    forall i | 0 <= i < |d| ensures d[i] != '&' && !IsBlank(d[i]) {
      if i < |PIN| {
        assert d[i] == PIN[i];
      } else {
        assert d[i] == d[|PIN|..][i - |PIN|];
      }
    }
  }

  /** The parts of a line around its first field. */
  lemma {:induction false} Decomposed(line: Line) returns (lead: string, gap: string, rest: string)
    ensures line == lead + First(line) + gap + rest
    ensures All(lead, IsBlank) && All(gap, IsBlank)
    ensures gap == [] ==> rest == []
    ensures rest != [] ==> !IsBlank(rest[0])
    ensures Second(line) == Span(rest, IsSolid)
  {
    var trimmed := Past(line, IsBlank);
    var past := Past(trimmed, IsSolid);
    lead, gap, rest := Span(line, IsBlank), Span(past, IsBlank), Past(past, IsBlank);
    var key := Span(trimmed, IsSolid);
    Shift(lead, key, gap, rest);
  }

  lemma {:induction false} Composed(lead: string, key: string, gap: string, rest: string)
    requires All(lead, IsBlank) && All(gap, IsBlank)
    requires key != [] && All(key, IsSolid)
    requires gap == [] ==> rest == []
    ensures First(lead + key + gap + rest) == key
    ensures rest != [] && !IsBlank(rest[0]) ==> Second(lead + key + gap + rest) == Span(rest, IsSolid)
  {
    var tail := gap + rest;
    assert lead + key + gap + rest == lead + (key + tail);
    assert (key + tail)[0] == key[0];
    assert gap != [] ==> tail[0] == gap[0];
    SpanOf(lead, key + tail, IsBlank);
    SpanOf(key, tail, IsSolid);
    if rest != [] && !IsBlank(rest[0]) {
      SpanOf(gap, rest, IsBlank);
    }
  }

  lemma {:induction false} SubstituteBehindKey(lead: string, gap: string, rest: string, d: string)
    requires All(lead, IsBlank) && All(gap, IsBlank)
    ensures Substitute(lead + KEY + gap + rest, d) == lead + KEY + gap + Substitute(rest, d)
  {
    assert PinFree(KEY);
    assert PinFree(lead + KEY);
    SubstitutePasses(lead + KEY + gap, rest, d);
  }

  /** Rewriting never changes whether a line is a digest line. */
  lemma {:induction false} SubstituteKeepsKey(line: Line, d: string)
    requires IsPinLine(line)
    ensures IsPinLine(Substitute(line, d))
  {
    var lead, gap, rest := Decomposed(line);
    SubstituteBehindKey(lead, gap, rest, d);
    Composed(lead, KEY, gap, Substitute(rest, d));
  }

  lemma {:induction false} SubstitutePin(pin: string, tail: string, d: string)
    requires IsPin(pin) && (tail == [] || IsBlank(tail[0]))
    ensures Substitute(pin + tail, d) == Expand(d, pin) + tail
  {
    var digits := pin[|PIN|..];
    assert pin == PIN + digits;
    assert (pin + tail)[..|PIN|] == PIN && (pin + tail)[|PIN|..] == digits + tail;
    SpanOf(digits, tail, IsHex);
  }

  /** On a well-formed line, the second field becomes the replacement text, expanded. */
  lemma {:induction false} SubstituteSecond(line: Line, d: string)
    requires Pinned(line) && All(d, IsSolid) && d != []
    ensures Second(Substitute(line, d)) == Expand(d, Second(line))
  {
    var lead, gap, rest := Decomposed(line);
    var pin := Second(line);
    var written, tail := Expand(d, pin), Past(rest, IsSolid);
    SubstitutePin(pin, tail, d);
    PinChars(pin);
    ExpandIsSolid(d, pin);
    ExpandIsLiteral(d, pin);
    SubstituteBehindKey(lead, gap, rest, d);
    SpanOf(written, tail, IsSolid);
    assert (written + tail)[0] == written[0];
    Composed(lead, KEY, gap, written + tail);
  }

  lemma {:induction false} TwiceAtPin(line: Line, d: string, e: string)
    requires IsPin(d) && IsPin(e) && PIN <= line
    ensures Substitute(Substitute(line, d), e) == Substitute(line, e)
  {
    var after := line[|PIN|..];
    var rest := Past(after, IsHex);
    SubstituteStarts(line, d);
    SubstituteStarts(line, e);
    assert PIN <= d + rest && (d + rest)[|PIN|..] == d[|PIN|..] + rest;
    SpanOf(d[|PIN|..], rest, IsHex);
    SubstituteStarts(d + rest, e);
  }

  /** A second substitution overrides the first, on any line whatever. */
  lemma {:induction false} SubstituteTwice(line: Line, d: string, e: string)
    requires IsPin(d) && IsPin(e)
    ensures Substitute(Substitute(line, d), e) == Substitute(line, e)
  {
    if PIN <= line {
      TwiceAtPin(line, d, e);
    } else if line != [] {
      SubstituteTwice(line[1..], d, e);
      SubstituteCons(line, d);
      PassOne(line, e);
      PassOne(Substitute(line, d), e);
      assert ([line[0]] + Substitute(line[1..], d))[1..] == Substitute(line[1..], d);
    }
  }

  lemma {:induction false} SubstituteCons(line: Line, d: string)
    requires IsPin(d) && line != [] && !(PIN <= line)
    ensures Substitute(line, d) == [line[0]] + Substitute(line[1..], d)
    ensures !(PIN <= Substitute(line, d))
  {
    assert PIN[0..] == PIN;
    if PIN <= Substitute(line, d) {
      NoNewPin(line, d, 0);
    }
  }

  lemma {:induction false} SubstituteStarts(line: Line, d: string)
    requires IsPin(d) && PIN <= line
    ensures Substitute(line, d) == d + Past(line[|PIN|..], IsHex)
    ensures Substitute(line, d)[0] == 's'
  {
    PinChars(d);
    ExpandIsLiteral(d, PIN + Span(line[|PIN|..], IsHex));
    assert d[0] == PIN[0];
  }

  /** Writing a pin does not complete one that begins earlier in the line. */
  lemma {:induction false} NoNewPin(line: Line, d: string, k: nat)
    requires IsPin(d) && k <= |PIN|
    requires PIN[k..] <= Substitute(line, d)
    ensures PIN[k..] <= line
  {
    assert forall j :: 0 < j < |PIN| ==> PIN[j] != 's';
    assert k < |PIN| ==> PIN[k..][0] == PIN[k];
    if PIN <= line {
      SubstituteStarts(line, d);
    } else if line != [] && k < |PIN| {
      var tail := Substitute(line[1..], d);
      assert Substitute(line, d) == [line[0]] + tail;
      assert PIN[k + 1..] <= tail by {
        assert PIN[k..][1..] == PIN[k + 1..] && ([line[0]] + tail)[1..] == tail;
      }
      NoNewPin(line[1..], d, k + 1);
      assert PIN[k..] == [PIN[k]] + PIN[k + 1..] && line == [line[0]] + line[1..];
    }
  }

  // ---------------------------------------------------------------- the lens

  /** Writing keeps every line's role, hence which lines are targeted. */
  lemma {:induction false} WriteKeepsTargets(lines: seq<Line>, image: string, d: string)
    ensures |Write(lines, image, d)| == |lines|
    ensures forall i: nat :: Targeted(Write(lines, image, d), image, i) <==> Targeted(lines, image, i)
  {
    var out := Write(lines, image, d);
    WriteTouchesOnlyTargets(lines, image, d);
    forall i | 0 <= i < |lines|
      ensures (IsPinLine(out[i]) <==> IsPinLine(lines[i])) && (IsName(out[i], image) <==> IsName(lines[i], image))
    {
      if Targeted(lines, image, i) {
        SubstituteKeepsKey(lines[i], d);
      }
    }
    SameRoles(lines, out, image);
  }

  lemma {:induction false} SameRoles(a: seq<Line>, b: seq<Line>, image: string)
    requires |a| == |b|
    requires forall i :: 0 <= i < |a| ==>
               (IsPinLine(a[i]) <==> IsPinLine(b[i])) && (IsName(a[i], image) <==> IsName(b[i], image))
    ensures forall i: nat :: Targeted(a, image, i) <==> Targeted(b, image, i)
  {
    forall i: nat | i < |a| ensures Waiting(a, image, i) <==> Waiting(b, image, i) {
      forall j | 0 <= j < i ensures NoPinLine(a[j..i]) <==> NoPinLine(b[j..i]) {
        assert forall k :: 0 <= k < i - j ==> a[j..i][k] == a[j + k] && b[j..i][k] == b[j + k];
        assert forall k :: j <= k < i ==> a[j..i][k - j] == a[k] && b[j..i][k - j] == b[k];
      }
    }
  }

  /** What is written is read back, exactly when the text holds no ampersand: the replacement gives
      that character a meaning of its own. A digest of 64 hexadecimal digits never does. */
  lemma {:induction false} ReadsBackExactlyWhen(lines: seq<Line>, image: string, d: string, i: nat)
    requires FirstTarget(lines, image, i) && Pinned(lines[i])
    requires Usable(d) && All(d, IsSolid)
    ensures Read(Write(lines, image, d), image) == d <==> '&' !in d
    ensures IsDigest(d) ==> '&' !in d
  {
    var out := Write(lines, image, d);
    WriteTouchesOnlyTargets(lines, image, d);
    WriteKeepsTargets(lines, image, d);
    ReadsFirstTarget(out, image, i);
    SubstituteSecond(lines[i], d);
    PinChars(Second(lines[i]));
    ExpandIsLiteral(d, Second(lines[i]));
    if IsDigest(d) {
      PinChars(d);
    }
  }

  /** The script's own check of a digest does not exclude such a text. */
  lemma {:induction false} UsableIsLoose(d: string)
    requires d == PIN + "0" + seq(63, i => '&')
    ensures Usable(d) && All(d, IsSolid) && !IsDigest(d) && '&' in d
  {
    assert d[7] == '0' && d[8] == '&';
    assert d[|PIN|..][1] == '&';
    forall i | 0 <= i < |d| ensures !IsBlank(d[i]) {
      if i < 7 {
        assert d[i] == PIN[i];
      } else if i > 7 {
        assert d[i] == '&';
      }
    }
  }

  /** The second of two writes wins, whatever the file holds; in particular writing twice is
      writing once. */
  lemma {:induction false} LastWriteWins(lines: seq<Line>, image: string, d: string, e: string)
    requires IsDigest(d) && IsDigest(e)
    ensures Write(Write(lines, image, d), image, e) == Write(lines, image, e)
  {
    var out := Write(lines, image, d);
    WriteTouchesOnlyTargets(lines, image, d);
    WriteTouchesOnlyTargets(out, image, e);
    WriteTouchesOnlyTargets(lines, image, e);
    WriteKeepsTargets(lines, image, d);
    forall i | 0 <= i < |lines| ensures Write(out, image, e)[i] == Write(lines, image, e)[i] {
      if Targeted(lines, image, i) {
        SubstituteTwice(lines[i], d, e);
      }
    }
  }

  ghost predicate AllPinned(lines: seq<Line>, image: string) {
    forall i: nat :: Targeted(lines, image, i) ==> Pinned(lines[i])
  }

  /** Writing a digest changes nothing exactly when every digest line of the image already holds it. */
  lemma {:induction false} UnchangedExactlyWhen(lines: seq<Line>, image: string, d: string)
    requires AllPinned(lines, image) && IsDigest(d)
    ensures Write(lines, image, d) == lines <==>
            forall i: nat :: Targeted(lines, image, i) ==> Second(lines[i]) == d
  {
    var out := Write(lines, image, d);
    WriteTouchesOnlyTargets(lines, image, d);
    PinChars(d);
    forall i: nat | Targeted(lines, image, i) ensures out[i] == lines[i] <==> Second(lines[i]) == d {
      SubstituteSecond(lines[i], d);
      ExpandIsLiteral(d, Second(lines[i]));
      if Second(lines[i]) == d {
        SubstituteOwn(lines[i]);
      }
    }
  }

  lemma {:induction false} SubstituteOwn(line: Line)
    requires Pinned(line)
    ensures Substitute(line, Second(line)) == line
  {
    var lead, gap, rest := Decomposed(line);
    var pin := Second(line);
    SubstitutePin(pin, Past(rest, IsSolid), pin);
    PinChars(pin);
    ExpandIsLiteral(pin, pin);
    SubstituteBehindKey(lead, gap, rest, pin);
  }

  /** The script skips a file whose first entry is current; where a later entry of the same image is
      stale, writing would not have been idle. */
  lemma {:induction false} SkipsStaleEntry(lines: seq<Line>, image: string, d: string, i: nat, j: nat)
    requires IsDigest(d) && FirstTarget(lines, image, i) && Second(lines[i]) == d
    requires Targeted(lines, image, j) && Pinned(lines[j]) && Second(lines[j]) != d
    ensures Read(lines, image) == d && Write(lines, image, d) != lines
  {
    ReadsFirstTarget(lines, image, i);
    WriteTouchesOnlyTargets(lines, image, d);
    SubstituteSecond(lines[j], d);
    PinChars(d);
    ExpandIsLiteral(d, Second(lines[j]));
  }

  // ---------------------------------------------------------------- whose digest is rewritten

  /** The line that opens an entry of the list of images. */
  predicate Opens(line: Line) {
    First(line) == "-"
  }

  /** Lines `a` to `b` are one entry, or what stands before the first one. */
  predicate IsEntry(lines: seq<Line>, a: nat, b: nat) {
    && a < b <= |lines|
    && (a == 0 || Opens(lines[a]))
    && (b == |lines| || Opens(lines[b]))
    && forall m :: a < m < b ==> !Opens(lines[m])
  }

  /** The entry names the image. */
  predicate IsFor(lines: seq<Line>, image: string, a: nat, b: nat)
    requires b <= |lines|
  {
    exists j :: a <= j < b && IsName(lines[j], image)
  }

  /** Every digest that is rewritten stands in an entry that names the image. */
  ghost predicate OnlyOwn(lines: seq<Line>, image: string) {
    forall a: nat, b: nat, i: nat ::
      IsEntry(lines, a, b) && a <= i < b && Targeted(lines, image, i) ==> IsFor(lines, image, a, b)
  }

  /** The entry names the image and holds no digest after that. */
  predicate Unpinned(lines: seq<Line>, image: string, a: nat, b: nat)
    requires b <= |lines|
  {
    exists j :: a <= j < b && IsName(lines[j], image) && NoPinLine(lines[j..b])
  }

  /** An entry that is left without a digest, and the next one that holds any. */
  predicate LeftTo(lines: seq<Line>, image: string, a: nat, b: nat, c: nat, d: nat) {
    && IsEntry(lines, a, b) && IsEntry(lines, c, d) && b <= c
    && Unpinned(lines, image, a, b)
    && NoPinLine(lines[b..c]) && !NoPinLine(lines[c..d])
  }

  lemma {:induction false} StartOf(lines: seq<Line>, j: nat) returns (a: nat)
    requires j < |lines|
    ensures a <= j && (a == 0 || Opens(lines[a])) && forall m :: a < m <= j ==> !Opens(lines[m])
  {
    a := j;
    if j > 0 && !Opens(lines[j]) {
      a := StartOf(lines, j - 1);
    }
  }

  lemma {:induction false} EndOf(lines: seq<Line>, k: nat) returns (b: nat)
    requires k <= |lines|
    ensures k <= b <= |lines| && (b == |lines| || Opens(lines[b])) && forall m :: k <= m < b ==> !Opens(lines[m])
    decreases |lines| - k
  {
    b := k;
    if k < |lines| && !Opens(lines[k]) {
      b := EndOf(lines, k + 1);
    }
  }

  /** Every line stands in an entry. */
  lemma {:induction false} EntryOf(lines: seq<Line>, j: nat) returns (a: nat, b: nat)
    requires j < |lines|
    ensures IsEntry(lines, a, b) && a <= j < b
  {
    a := StartOf(lines, j);
    b := EndOf(lines, j + 1);
  }

  lemma {:induction false} NoPinConcat(a: seq<Line>, b: seq<Line>)
    ensures NoPinLine(a + b) <==> NoPinLine(a) && NoPinLine(b)
  {
    assert (a + b)[..|a|] == a && (a + b)[|a|..] == b;
    if NoPinLine(a + b) {
      assert forall i :: 0 <= i < |a| ==> a[i] == (a + b)[i];
      assert forall i :: 0 <= i < |b| ==> b[i] == (a + b)[|a| + i];
    }
  }

  lemma {:induction false} NoPinSplit(lines: seq<Line>, j: nat, k: nat, i: nat)
    requires j <= k <= i <= |lines|
    ensures NoPinLine(lines[j..i]) <==> NoPinLine(lines[j..k]) && NoPinLine(lines[k..i])
  {
    assert lines[j..i] == lines[j..k] + lines[k..i];
    NoPinConcat(lines[j..k], lines[k..i]);
  }

  /** A digest that is rewritten in an entry that does not name the image was left to it. */
  lemma {:induction false} StrayIsLeft(lines: seq<Line>, image: string, c: nat, d: nat, i: nat) returns (a: nat, b: nat)
    requires IsEntry(lines, c, d) && c <= i < d && Targeted(lines, image, i) && !IsFor(lines, image, c, d)
    ensures LeftTo(lines, image, a, b, c, d)
  {
    var j :| 0 <= j < i && IsName(lines[j], image) && NoPinLine(lines[j..i]);
    a, b := EntryOf(lines, j);
    NoPinSplit(lines, j, b, i);
    NoPinSplit(lines, b, c, i);
    PinWithin(lines, c, d, i);
  }

  lemma {:induction false} PinWithin(lines: seq<Line>, c: nat, d: nat, i: nat)
    requires c <= i < d <= |lines| && IsPinLine(lines[i])
    ensures !NoPinLine(lines[c..d])
  {
    assert lines[c..d][i - c] == lines[i];
  }

  lemma {:induction false} PinIn(lines: seq<Line>, c: nat, d: nat) returns (k: nat)
    requires c <= d <= |lines| && !NoPinLine(lines[c..d])
    ensures c <= k < d && IsPinLine(lines[k])
  {
    var m :| 0 <= m < d - c && IsPinLine(lines[c..d][m]);
    k := c + m;
  }

  lemma {:induction false} LeftIsTargeted(lines: seq<Line>, image: string, a: nat, b: nat, c: nat, d: nat)
      returns (i: nat)
    requires LeftTo(lines, image, a, b, c, d)
    ensures c <= i < d && Targeted(lines, image, i)
  {
    var j :| a <= j < b && IsName(lines[j], image) && NoPinLine(lines[j..b]);
    var k := PinIn(lines, c, d);
    i := FirstPinLine(lines, c, k);
    NoPinSplit(lines, j, b, c);
    NoPinSplit(lines, j, c, i);
  }

  /** The writer's flag is not tied to an entry: it stays up from a line naming the image to the next
      digest line, across entries. So only digests of the image are rewritten exactly when, after each
      entry that names the image and is left without a digest, the next entry that holds one names the
      image too. */
  lemma {:induction false} OnlyOwnExactlyWhen(lines: seq<Line>, image: string)
    ensures OnlyOwn(lines, image) <==>
            forall a: nat, b: nat, c: nat, d: nat ::
              LeftTo(lines, image, a, b, c, d) ==> IsFor(lines, image, c, d)
  {
    if OnlyOwn(lines, image) {
      forall a: nat, b: nat, c: nat, d: nat | LeftTo(lines, image, a, b, c, d) ensures IsFor(lines, image, c, d) {
        var i := LeftIsTargeted(lines, image, a, b, c, d);
      }
    } else {
      var c: nat, d: nat, i: nat :|
        IsEntry(lines, c, d) && c <= i < d && Targeted(lines, image, i) && !IsFor(lines, image, c, d);
      var a, b := StrayIsLeft(lines, image, c, d, i);
    }
  }

  function Keyed(lead: string, key: string, value: string): Line {
    lead + key + " " + value
  }

  lemma {:induction false} OpeningLine(value: string)
    requires value != [] && !IsBlank(value[0])
    ensures Opens(Keyed("", "-", value))
  {
    Composed("", "-", " ", value);
  }

  lemma {:induction false} KeyedFields(lead: string, key: string, value: string)
    requires All(lead, IsBlank) && key != [] && All(key, IsSolid) && value != [] && All(value, IsSolid)
    ensures First(Keyed(lead, key, value)) == key && Second(Keyed(lead, key, value)) == value
  {
    Composed(lead, key, " ", value);
    assert value + [] == value;
    SpanOf(value, [], IsSolid);
  }

  lemma {:induction false} NamingLine(lead: string, image: string)
    requires All(lead, IsBlank) && image != [] && All(image, IsSolid)
    ensures IsName(Keyed(lead, "newName:", image), image)
  {
    KeyedFields(lead, "newName:", image);
  }

  lemma {:induction false} DigestLine(lead: string, pin: string)
    requires All(lead, IsBlank) && IsPin(pin)
    ensures IsPinLine(Keyed(lead, KEY, pin))
  {
    PinChars(pin);
    KeyedFields(lead, KEY, pin);
  }

  /** The entry of another image that carries a name and a digest only, behind one that names this image
      and pins nothing: the other image's digest is rewritten. */
  lemma {:induction false} StrayDigest(
      lines: seq<Line>, image: string, ours: string, theirs: string, lead: string, pin: string)
    requires All(lead, IsBlank) && image != [] && All(image, IsSolid) && IsPin(pin)
    requires ours != [] && !IsBlank(ours[0]) && theirs != [] && !IsBlank(theirs[0])
    requires |lines| == 4
    requires lines[0] == Keyed("", "-", ours) && lines[1] == Keyed(lead, "newName:", image)
    requires lines[2] == Keyed("", "-", theirs) && lines[3] == Keyed(lead, KEY, pin)
    ensures Targeted(lines, image, 3) && !OnlyOwn(lines, image)
  {
    OpeningLine(ours);
    NamingLine(lead, image);
    OpeningLine(theirs);
    DigestLine(lead, pin);
    StrayOfFour(lines, image);
  }

  lemma {:induction false} StrayOfFour(lines: seq<Line>, image: string)
    requires |lines| == 4 && Opens(lines[0]) && IsName(lines[1], image) && Opens(lines[2]) && IsPinLine(lines[3])
    ensures Targeted(lines, image, 3) && !OnlyOwn(lines, image)
  {
    StrayWaits(lines, image);
    StrayEntry(lines, image);
    StrayTarget(lines, image, 2, 4, 3);
  }

  lemma {:induction false} StrayTarget(lines: seq<Line>, image: string, a: nat, b: nat, i: nat)
    requires IsEntry(lines, a, b) && a <= i < b && Targeted(lines, image, i) && !IsFor(lines, image, a, b)
    ensures !OnlyOwn(lines, image)
  {
  }

  lemma {:induction false} StrayWaits(lines: seq<Line>, image: string)
    requires |lines| == 4 && IsName(lines[1], image) && Opens(lines[2])
    ensures Waiting(lines, image, 3)
  {
    NotPins(lines[1], lines[2], image);
    assert lines[1..3] == [lines[1], lines[2]];
  }

  lemma {:induction false} NotPins(x: Line, y: Line, image: string)
    requires IsName(x, image) && Opens(y)
    ensures NoPinLine([x, y])
  {
  }

  lemma {:induction false} StrayEntry(lines: seq<Line>, image: string)
    requires |lines| == 4 && Opens(lines[2]) && IsPinLine(lines[3])
    ensures IsEntry(lines, 2, 4) && !IsFor(lines, image, 2, 4)
  {
  }

  // ---------------------------------------------------------------- one manifest

  predicate EndsWith(line: Line, suffix: string) {
    |suffix| <= |line| && line[|line| - |suffix|..] == suffix
  }

  datatype Outcome = Skipped | Unchanged | Bumped(lines: seq<Line>) | Failed

  predicate Mentioned(lines: seq<Line>, image: string) {
    exists i :: 0 <= i < |lines| && EndsWith(lines[i], "newName: " + image)
  }

  predicate Confirmed(lines: seq<Line>, d: string) {
    exists i :: 0 <= i < |lines| && EndsWith(lines[i], KEY + " " + d)
  }

  function BumpOf(lines: seq<Line>, image: string, d: string): Outcome {
    if !Mentioned(lines, image) then Skipped
    else if Read(lines, image) == d then Unchanged
    else if Confirmed(Write(lines, image, d), d) then Bumped(Write(lines, image, d))
    else Failed
  }

  method Bump(lines: seq<Line>, image: string, d: string) returns (o: Outcome)
    ensures o == BumpOf(lines, image, d)
  {
    if !Mentioned(lines, image) {
      return Skipped;
    }
    var current := ReadPinned(lines, image);
    if current == d {
      return Unchanged;
    }
    var out := WritePinned(lines, image, d);
    if !Confirmed(out, d) {
      return Failed;
    }
    o := Bumped(out);
  }

  /** A digest line that holds its key, one space, a pin and nothing more. */
  predicate Tidy(line: Line) {
    IsPin(Second(line)) && line == Span(line, IsBlank) + KEY + " " + Second(line)
  }

  /** The image is named in the way the script looks for, and a digest line follows. */
  predicate Listed(lines: seq<Line>, image: string, j: nat, i: nat) {
    && j < i < |lines|
    && IsName(lines[j], image) && EndsWith(lines[j], "newName: " + image)
    && IsPinLine(lines[i])
  }

  type Test = nat -> bool

  lemma {:induction false} Least(p: Test, from: nat, n: nat) returns (k: nat)
    requires from <= n && p(n)
    ensures from <= k <= n && p(k) && forall j: nat :: from <= j < k ==> !p(j)
    decreases n - from
  {
    k := from;
    if !p(from) {
      k := Least(p, from + 1, n);
    }
  }

  function Pins(lines: seq<Line>): Test {
    (k: nat) => k < |lines| && IsPinLine(lines[k])
  }

  function Targets(lines: seq<Line>, image: string): Test {
    (k: nat) => Targeted(lines, image, k)
  }

  lemma {:induction false} FirstPinLine(lines: seq<Line>, j: nat, i: nat) returns (p: nat)
    requires j <= i < |lines| && IsPinLine(lines[i])
    ensures j <= p <= i && IsPinLine(lines[p]) && NoPinLine(lines[j..p])
  {
    p := Least(Pins(lines), j, i);
    forall k: nat | k < p - j ensures !IsPinLine(lines[j..p][k]) {
      assert !Pins(lines)(j + k);
    }
  }

  lemma {:induction false} LeastTarget(lines: seq<Line>, image: string, j: nat, i: nat) returns (first: nat)
    requires j < i < |lines| && IsName(lines[j], image) && IsPinLine(lines[i])
    ensures FirstTarget(lines, image, first)
  {
    assert !IsPinLine(lines[j]);
    var p := FirstPinLine(lines, j, i);
    assert Waiting(lines, image, p);
    first := Least(Targets(lines, image), 0, p);
    forall k: nat | k < first ensures !Targeted(lines, image, k) {
      assert !Targets(lines, image)(k);
    }
  }

  /** Bumping a well-formed manifest never fails, leaves the digest to be read back, and has nothing
      to do the second time. */
  lemma {:induction false} BumpSettles(lines: seq<Line>, image: string, d: string, j: nat, i: nat)
    requires IsDigest(d) && Listed(lines, image, j, i)
    requires forall k: nat :: Targeted(lines, image, k) ==> Tidy(lines[k])
    ensures match BumpOf(lines, image, d)
            case Unchanged => Read(lines, image) == d
            case Bumped(out) => out == Write(lines, image, d) && Read(out, image) == d
                                && BumpOf(out, image, d) == Unchanged
            case _ => false
  {
    assert Mentioned(lines, image);
    if Read(lines, image) != d {
      var out := Write(lines, image, d);
      PinChars(d);
      WriteTouchesOnlyTargets(lines, image, d);
      var first := LeastTarget(lines, image, j, i);
      TidyStaysTidy(lines[first], d);
      assert Confirmed(out, d);
      ReadsBackExactlyWhen(lines, image, d, first);
      NameLineStays(lines, image, d, j);
      assert Mentioned(out, image);
    }
  }

  lemma {:induction false} FirstOfTargets(lines: seq<Line>, image: string, j: nat) returns (first: nat)
    requires Targeted(lines, image, j)
    ensures FirstTarget(lines, image, first)
  {
    first := Least(Targets(lines, image), 0, j);
    forall k: nat | k < first ensures !Targeted(lines, image, k) {
      assert !Targets(lines, image)(k);
    }
  }

  lemma {:induction false} OneFirst(lines: seq<Line>, image: string, i: nat, k: nat)
    requires FirstTarget(lines, image, i) && FirstTarget(lines, image, k)
    ensures i == k
  {
  }

  /** The first digest of the image is this one. */
  ghost predicate FirstCurrent(lines: seq<Line>, image: string, d: string) {
    exists i: nat :: FirstTarget(lines, image, i) && Second(lines[i]) == d
  }

  /** Some digest of the image is another one. */
  ghost predicate SomeStale(lines: seq<Line>, image: string, d: string) {
    exists j: nat :: Targeted(lines, image, j) && Second(lines[j]) != d
  }

  lemma {:induction false} ReadsCurrent(lines: seq<Line>, image: string, d: string)
    requires SomeStale(lines, image, d)
    ensures Read(lines, image) == d <==> FirstCurrent(lines, image, d)
  {
    var j: nat :| Targeted(lines, image, j) && Second(lines[j]) != d;
    var i := FirstOfTargets(lines, image, j);
    ReadsFirstTarget(lines, image, i);
    if k: nat :| FirstTarget(lines, image, k) && Second(lines[k]) == d {
      OneFirst(lines, image, i, k);
    }
  }

  lemma {:induction false} UnchangedIs(lines: seq<Line>, image: string, d: string)
    ensures BumpOf(lines, image, d) == Unchanged <==> Mentioned(lines, image) && Read(lines, image) == d
  {
  }

  lemma {:induction false} WriteChanges(lines: seq<Line>, image: string, d: string)
    requires AllPinned(lines, image) && IsDigest(d)
    ensures Write(lines, image, d) != lines <==> SomeStale(lines, image, d)
  {
    UnchangedExactlyWhen(lines, image, d);
  }

  /** A manifest is left alone although writing would have changed it exactly when it mentions the image,
      the first digest of the image is current and some other is not. */
  lemma {:induction false} SkippedExactlyWhen(lines: seq<Line>, image: string, d: string)
    requires AllPinned(lines, image) && IsDigest(d)
    ensures BumpOf(lines, image, d) == Unchanged && Write(lines, image, d) != lines <==>
            Mentioned(lines, image) && FirstCurrent(lines, image, d) && SomeStale(lines, image, d)
  {
    UnchangedIs(lines, image, d);
    WriteChanges(lines, image, d);
    if SomeStale(lines, image, d) {
      ReadsCurrent(lines, image, d);
    }
  }

  lemma {:induction false} NameLineStays(lines: seq<Line>, image: string, d: string, j: nat)
    requires j < |lines| && IsName(lines[j], image)
    ensures |Write(lines, image, d)| == |lines| && Write(lines, image, d)[j] == lines[j]
  {
    WriteTouchesOnlyTargets(lines, image, d);
    assert !Targeted(lines, image, j);
  }

  lemma {:induction false} EndsWithSpaced(lead: string, key: string, gap: string, d: string)
    ensures EndsWith(lead + key + gap + d, key + gap + d)
  {
    assert lead + key + gap + d == lead + (key + gap + d);
  }

  lemma {:induction false} TidyLine(lead: string, gap: string, pin: string, d: string)
    requires All(lead, IsBlank) && All(gap, IsBlank) && IsPin(pin) && IsPin(d)
    ensures EndsWith(Substitute(lead + KEY + gap + pin, d), KEY + gap + d)
  {
    assert pin + [] == pin && d + [] == d;
    SubstitutePin(pin, [], d);
    PinChars(d);
    ExpandIsLiteral(d, pin);
    SubstituteBehindKey(lead, gap, pin, d);
    EndsWithSpaced(lead, KEY, gap, d);
  }

  lemma {:induction false} TidyStaysTidy(line: Line, d: string)
    requires Tidy(line) && IsDigest(d)
    ensures EndsWith(Substitute(line, d), KEY + " " + d)
  {
    TidyLine(Span(line, IsBlank), " ", Second(line), d);
  }
}
