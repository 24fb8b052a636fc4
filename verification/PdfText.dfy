/**
  Text of a generated page: each wrapped line becomes a PDF literal string (section 7.3.4.2 of
  ISO 32000-1) shown by a Tj operator. A reader of that syntax gets back exactly the lines.
 */
module PdfText {
  import opened Wrappers

  const PREFIX := "BT /F1 12 Tf 36 750 Td 16 TL "
  const SHOW := " Tj T*"
  const SUFFIX := " ET"

  // ---- writing --------------------------------------------------------------------------------

  /** Every occurrence of one character replaced by a string. */
  function Replace(s: string, c: char, written: string): string {
    if s == "" then "" else (if s[0] == c then written else [s[0]]) + Replace(s[1..], c, written)
  }

  /** The source's three replacements, backslash first. */
  function Escape(line: string): string {
    Replace(Replace(Replace(line, '\\', "\\\\"), '(', "\\("), ')', "\\)")
  }

  predicate Special(c: char) { c == '\\' || c == '(' || c == ')' }

  function EscapeOnce(line: string): string {
    if line == "" then ""
    else (if Special(line[0]) then ['\\', line[0]] else [line[0]]) + EscapeOnce(line[1..])
  }

  function Shows(lines: seq<string>): string {
    if lines == [] then ""
    else
      var show := "(" + Escape(lines[0]) + ")" + SHOW;
      if |lines| == 1 then show else show + " " + Shows(lines[1..])
  }

  function Stream(lines: seq<string>): string { PREFIX + Shows(lines) + SUFFIX }

  // ---- reading --------------------------------------------------------------------------------

  predicate OctalDigit(c: char) { '0' <= c <= '7' }

  /** The number of octal digits at the start, at most `limit`. */
  function OctalLength(s: string, limit: nat): (n: nat)
    ensures n <= |s| && n <= limit
  {
    if limit == 0 || s == "" || !OctalDigit(s[0]) then 0 else 1 + OctalLength(s[1..], limit - 1)
  }

  function OctalValue(s: string): nat
    requires forall i :: 0 <= i < |s| ==> OctalDigit(s[i])
  {
    if s == "" then 0
    else
      var last := s[|s| - 1];
      assert OctalDigit(last);
      8 * OctalValue(s[..|s| - 1]) + (last as int - '0' as int)
  }

  lemma OctalDigits(s: string, limit: nat)
    ensures forall i :: 0 <= i < OctalLength(s, limit) ==> OctalDigit(s[i])
  {
  }

  /** What an escape sequence stands for, and how many characters after the backslash it takes. */
  function Unescape(s: string): (result: (string, nat))
    requires s != ""
    ensures 1 <= result.1 <= |s|
  {
    var c := s[0];
    if c == 'n' then ("\n", 1)
    else if c == 'r' then ("\r", 1)
    else if c == 't' then ("\t", 1)
    else if c == 'b' then ([8 as char], 1)
    else if c == 'f' then ([12 as char], 1)
    else if c == '\r' then ("", if |s| > 1 && s[1] == '\n' then 2 else 1)
    else if c == '\n' then ("", 1)
    else if OctalDigit(c) then
      var n := OctalLength(s, 3);
      OctalDigits(s, 3);
      ([(OctalValue(s[..n]) % 256) as char], n)
    else ([c], 1)
  }

  /** The string whose opening parentheses, `depth` of them still open, have been read. */
  function ReadLiteral(s: string, depth: nat): (result: Option<(string, string)>)
    requires depth > 0
    ensures result.Some? ==> |result.value.1| < |s|
    decreases |s|
  {
    if s == "" then None
    else if s[0] == ')' && depth == 1 then Some(("", s[1..]))
    else if s[0] == '\\' then
      if |s| == 1 then None
      else
        var (text, n) := Unescape(s[1..]);
        Before(text, ReadLiteral(s[1 + n..], depth))
    else if s[0] == '\r' then Before("\n", ReadLiteral(s[(if |s| > 1 && s[1] == '\n' then 2 else 1)..], depth))
    else
      var inner := if s[0] == '(' then depth + 1 else if s[0] == ')' then depth - 1 else depth;
      Before([s[0]], ReadLiteral(s[1..], inner))
  }

  function Before(text: string, rest: Option<(string, string)>): Option<(string, string)> {
    if rest.None? then None else Some((text + rest.value.0, rest.value.1))
  }

  predicate StartsWith(s: string, prefix: string) { |prefix| <= |s| && s[..|prefix|] == prefix }

  /** A string shown, and how many times the position had moved down a line by then. */
  datatype Line = Line(text: string, row: nat)

  datatype Page = Page(lines: seq<Line>, rows: nat)

  /** What a content stream shows from a row on: Tj shows a string, and T* moves down; any string not shown is an error. */
  function Shown(s: string, row: nat): Option<Page>
    decreases |s|
  {
    if s == "" then Some(Page([], row))
    else if StartsWith(s, "T*") then Shown(s[2..], row + 1)
    else if s[0] != '(' then Shown(s[1..], row)
    else
      var literal := ReadLiteral(s[1..], 1);
      if literal.None? || !StartsWith(literal.value.1, " Tj") then None
      else WithLine(Line(literal.value.0, row), Shown(literal.value.1, row))
  }

  function WithLine(line: Line, rest: Option<Page>): Option<Page> {
    if rest.None? then None else Some(rest.value.(lines := [line] + rest.value.lines))
  }

  /** The lines one below the other. */
  function Column(lines: seq<string>, row: nat): Page {
    Page(seq(|lines|, i requires 0 <= i < |lines| => Line(lines[i], row + i)), row + |lines|)
  }

  // ---- three replacements are one escape ------------------------------------------------------

  lemma {:induction false} ReplaceConcat(a: string, b: string, c: char, written: string)
    ensures Replace(a + b, c, written) == Replace(a, c, written) + Replace(b, c, written)
  {
    if a == "" {
      assert a + b == b;
    } else {
      ReplaceConcat(a[1..], b, c, written);
      assert (a + b)[1..] == a[1..] + b;
    }
  }

  lemma ReplaceOne(x: char, c: char, written: string)
    ensures Replace([x], c, written) == if x == c then written else [x]
  {
  }

  lemma ReplaceTwo(x: char, y: char, c: char, written: string)
    ensures Replace([x, y], c, written) == (if x == c then written else [x]) + (if y == c then written else [y])
  {
    assert [x, y] == [x] + [y];
    ReplaceConcat([x], [y], c, written);
    ReplaceOne(x, c, written);
    ReplaceOne(y, c, written);
  }

  lemma EscapeOneCharacter(c: char)
    ensures Escape([c]) == if Special(c) then ['\\', c] else [c]
  {
    ReplaceOne(c, '\\', "\\\\");
    ReplaceOne(c, '(', "\\(");
    ReplaceOne(c, ')', "\\)");
    ReplaceTwo('\\', '\\', '(', "\\(");
    ReplaceTwo('\\', '\\', ')', "\\)");
    ReplaceTwo('\\', '(', ')', "\\)");
  }

  /** No replacement touches what an earlier one wrote, so one pass does the same. */
  lemma {:induction false} EscapeIsOnePass(line: string)
    ensures Escape(line) == EscapeOnce(line)
  {
    if line != "" {
      EscapeIsOnePass(line[1..]);
      assert line == [line[0]] + line[1..];
      ReplaceConcat([line[0]], line[1..], '\\', "\\\\");
      ReplaceConcat(Replace([line[0]], '\\', "\\\\"), Replace(line[1..], '\\', "\\\\"), '(', "\\(");
      ReplaceConcat(Replace(Replace([line[0]], '\\', "\\\\"), '(', "\\("),
                    Replace(Replace(line[1..], '\\', "\\\\"), '(', "\\("), ')', "\\)");
      EscapeOneCharacter(line[0]);
    }
  }

  /** Backslash has to come first: in the other order a parenthesis would be escaped twice. */
  lemma BackslashLastDiffers()
    ensures Replace(Replace("(", '(', "\\("), '\\', "\\\\") != EscapeOnce("(")
  {
  }

  // ---- the round trip -------------------------------------------------------------------------

  /** Lines as the wrapper makes them: no line break inside. */
  predicate Wrapped(line: string) { '\r' !in line }

  lemma {:induction false} LiteralRoundTrip(line: string, rest: string)
    requires Wrapped(line)
    ensures ReadLiteral(EscapeOnce(line) + ")" + rest, 1) == Some((line, rest))
  {
    var s := EscapeOnce(line) + ")" + rest;
    if line == "" {
      assert s == [')'] + rest;
    } else {
      var tail := EscapeOnce(line[1..]) + ")" + rest;
      LiteralRoundTrip(line[1..], rest);
      assert line == [line[0]] + line[1..];
      if Special(line[0]) {
        assert s == ['\\', line[0]] + tail && s[2..] == tail && s[1..][0] == line[0];
        assert Unescape(s[1..]) == ([line[0]], 1);
      } else {
        assert s == [line[0]] + tail && s[1..] == tail;
      }
    }
  }

  lemma {:induction false} SkipToLiteral(skipped: string, s: string, row: nat)
    requires '(' !in skipped && '*' !in skipped && (s == "" || s[0] != '*')
    ensures Shown(skipped + s, row) == Shown(s, row)
  {
    if skipped == "" {
      assert skipped + s == s;
    } else {
      var all := skipped + s;
      assert all[1..] == skipped[1..] + s;
      SkipToLiteral(skipped[1..], s, row);
      assert !StartsWith(all, "T*") by {
        if |all| > 1 { assert all[1] != '*' && all[..2][1] == all[1]; }
      }
    }
  }

  /** What follows a shown line is read one row further down. */
  lemma RowDown(rest: string, row: nat)
    ensures Shown(SHOW + rest, row) == Shown(rest, row + 1)
  {
    var next := "T*" + rest;
    assert SHOW + rest == " Tj " + next;
    SkipToLiteral(" Tj ", next, row);
    assert next[..2] == "T*" && next[2..] == rest;
  }

  /** One shown line, whatever follows it. */
  lemma ShowRoundTrip(line: string, rest: string, row: nat)
    requires Wrapped(line) && Shown(rest, row + 1).Some?
    ensures Shown("(" + Escape(line) + ")" + SHOW + rest, row) == WithLine(Line(line, row), Shown(rest, row + 1))
  {
    var s := "(" + Escape(line) + ")" + SHOW + rest;
    EscapeIsOnePass(line);
    assert s[1..] == EscapeOnce(line) + ")" + (SHOW + rest);
    LiteralRoundTrip(line, SHOW + rest);
    assert StartsWith(SHOW + rest, " Tj");
    assert !StartsWith(s, "T*") by { assert s[0] == '('; }
    RowDown(rest, row);
  }

  lemma ColumnNext(lines: seq<string>, row: nat)
    requires lines != []
    ensures WithLine(Line(lines[0], row), Some(Column(lines[1..], row + 1))) == Some(Column(lines, row))
  {
    assert Column(lines, row).lines == [Line(lines[0], row)] + Column(lines[1..], row + 1).lines;
  }

  lemma TheEnd(row: nat)
    ensures Shown(SUFFIX, row) == Some(Column([], row))
  {
    SkipToLiteral(SUFFIX, "", row);
    assert SUFFIX + "" == SUFFIX && Shown("", row) == Some(Page([], row));
    assert Column([], row).lines == [];
  }

  lemma {:induction false} ShowsRoundTrip(lines: seq<string>, row: nat)
    requires forall i :: 0 <= i < |lines| ==> Wrapped(lines[i])
    ensures Shown(Shows(lines) + SUFFIX, row) == Some(Column(lines, row))
    decreases |lines|
  {
    hide Shown, Escape, Column, WithLine;
    if lines == [] {
      TheEnd(row);
      assert Shows(lines) + SUFFIX == SUFFIX;
    } else if |lines| == 1 {
      TheEnd(row + 1);
      ShowRoundTrip(lines[0], SUFFIX, row);
      assert Shows(lines) + SUFFIX == "(" + Escape(lines[0]) + ")" + SHOW + SUFFIX;
      assert lines[1..] == [];
      ColumnNext(lines, row);
    } else {
      var rest := Shows(lines[1..]) + SUFFIX;
      ShowsRoundTrip(lines[1..], row + 1);
      ShowsStart(lines[1..]);
      SkipToLiteral(" ", rest, row + 1);
      ShowRoundTrip(lines[0], " " + rest, row);
      ShowsNext(lines);
      ColumnNext(lines, row);
    }
  }

  lemma ShowsStart(lines: seq<string>)
    requires lines != []
    ensures Shows(lines) != "" && Shows(lines)[0] == '('
  {
  }

  lemma ShowsNext(lines: seq<string>)
    requires |lines| > 1
    ensures Shows(lines) + SUFFIX == "(" + Escape(lines[0]) + ")" + SHOW + (" " + (Shows(lines[1..]) + SUFFIX))
  {
    hide Escape;
  }

  lemma SkipPrefix(s: string)
    requires s == "" || s[0] != '*'
    ensures Shown(PREFIX + s, 0) == Shown(s, 0)
  {
    hide Shown;
    SkipToLiteral(PREFIX, s, 0);
  }

  /**
    A page's content stream shows exactly its lines, whatever parentheses and backslashes they hold,
    one below the other, and ends one row below the last.
   */
  lemma StreamRoundTrip(lines: seq<string>)
    requires forall i :: 0 <= i < |lines| ==> Wrapped(lines[i])
    ensures var page := Shown(Stream(lines), 0);
            && "BT /F1 12 Tf 36 750 Td 16 TL " <= Stream(lines)
            && page.Some? && page.value.rows == |lines| && |page.value.lines| == |lines|
            && forall i :: 0 <= i < |lines| ==> page.value.lines[i] == Line(lines[i], i)
  {
    ShowsRoundTrip(lines, 0);
    if lines != [] {
      ShowsStart(lines);
    }
    hide Shown, Shows, Escape;
    SkipPrefix(Shows(lines) + SUFFIX);
    assert Stream(lines) == PREFIX + (Shows(lines) + SUFFIX);
  }
}
