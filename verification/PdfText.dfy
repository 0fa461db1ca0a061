/** Text in a PDF page: escaping, reading it back as section 7.3.4.2 of ISO 32000-1
    says, the content stream of a page, and the split of transactions over pages. */
module PdfText {
  import opened Outcomes
  import opened Splitting

  // ---------------------------------------------------------------- escaping

  function Replaced(s: string, c: char, with: string): string {
    if s == [] then [] else (if s[0] == c then with else [s[0]]) + Replaced(s[1..], c, with)
  }

  /** Three replacements, one after the other: first the backslashes. */
  function Escape(s: string): string {
    Replaced(Replaced(Replaced(s, '\\', "\\\\"), '(', "\\("), ')', "\\)")
  }

  function EscapeChar(c: char): string {
    if c == '\\' || c == '(' || c == ')' then ['\\', c] else [c]
  }

  lemma {:induction false} ReplacedJoined(s: string, t: string, c: char, with: string)
    ensures Replaced(s + t, c, with) == Replaced(s, c, with) + Replaced(t, c, with)
  {
    if s == [] {
      assert s + t == t;
    } else {
      assert (s + t)[1..] == s[1..] + t;
      ReplacedJoined(s[1..], t, c, with);
    }
  }

  lemma {:induction false} ReplacedAbsent(s: string, c: char, with: string)
    requires c !in s
    ensures Replaced(s, c, with) == s
  {
    if s != [] {
      ReplacedAbsent(s[1..], c, with);
      assert s == [s[0]] + s[1..];
    }
  }

  lemma ReplacedOne(a: char, c: char, with: string)
    ensures Replaced([a], c, with) == if a == c then with else [a]
  {
    assert [a][1..] == [];
  }

  lemma EscapeJoined(s: string, t: string)
    ensures Escape(s + t) == Escape(s) + Escape(t)
  {
    hide Replaced;
    ReplacedJoined(s, t, '\\', "\\\\");
    var s1, t1 := Replaced(s, '\\', "\\\\"), Replaced(t, '\\', "\\\\");
    ReplacedJoined(s1, t1, '(', "\\(");
    ReplacedJoined(Replaced(s1, '(', "\\("), Replaced(t1, '(', "\\("), ')', "\\)");
  }

  /** The order of the replacements is right: no replacement changes what an earlier one
      put in. */
  lemma EscapeOne(c: char)
    ensures Escape([c]) == EscapeChar(c)
  {
    hide Replaced;
    ReplacedOne(c, '\\', "\\\\");
    ReplacedOne(c, '(', "\\(");
    ReplacedOne(c, ')', "\\)");
    if c == '\\' {
      ReplacedAbsent("\\\\", '(', "\\(");
      ReplacedAbsent("\\\\", ')', "\\)");
      assert "\\\\" == ['\\', c];
    } else if c == '(' {
      ReplacedAbsent("\\(", ')', "\\)");
      assert "\\(" == ['\\', c];
    } else {
      assert "\\)" == ['\\', ')'];
    }
  }

  /** Each character is escaped on its own. */
  lemma EscapeByChar(c: char, s: string)
    ensures Escape([c] + s) == EscapeChar(c) + Escape(s) && Escape([]) == []
  {
    EscapeOne(c);
    hide Escape, EscapeChar;
    EscapeJoined([c], s);
    EscapeNothing();
  }

  lemma EscapeNothing()
    ensures Escape([]) == []
  {
  }

  // ---------------------------------------------------------------- reading a literal string

  predicate OctalDigit(c: char) {
    '0' <= c <= '7'
  }

  /** How many octal digits follow a backslash, at most three. */
  function OctalRun(s: string): (k: nat)
    ensures k <= 3 && k <= |s|
  {
    if s == [] || !OctalDigit(s[0]) then 0
    else if |s| == 1 || !OctalDigit(s[1]) then 1
    else if |s| == 2 || !OctalDigit(s[2]) then 2
    else 3
  }

  function OctalValue(s: string): nat
    requires forall i :: 0 <= i < |s| ==> OctalDigit(s[i])
  {
    if s == [] then 0
    else
      assert OctalDigit(s[|s| - 1]);
      8 * OctalValue(s[..|s| - 1]) + (s[|s| - 1] as int - '0' as int)
  }

  function NamedEscape(c: char): char {
    match c
    case 'n' => '\n'
    case 'r' => '\r'
    case 't' => '\t'
    case 'b' => '\U{0008}'
    case 'f' => '\U{000C}'
    case _ => c
  }

  function Prepend(c: char, r: Option<(string, string)>): Option<(string, string)> {
    if r == None then None else Some(([c] + r.value.0, r.value.1))
  }

  /** Reads what follows an opening parenthesis up to the closing one that balances it: the
      text, and what comes after it. An end-of-line marker inside is a line feed. */
  function ReadLiteral(s: string, depth: nat): (r: Option<(string, string)>)
    ensures r.Some? ==> |r.value.1| < |s|
    decreases |s|
  {
    if s == [] then None
    else if s[0] == '\\' then
      if |s| == 1 then None
      else if OctalRun(s[1..]) > 0 then
        var k := OctalRun(s[1..]);
        Prepend((OctalValue(s[1..1 + k]) % 256) as char, ReadLiteral(s[1 + k..], depth))
      else if s[1] == '\n' then ReadLiteral(s[2..], depth)
      else if s[1] == '\r' then ReadLiteral(if |s| > 2 && s[2] == '\n' then s[3..] else s[2..], depth)
      else Prepend(NamedEscape(s[1]), ReadLiteral(s[2..], depth))
    else if s[0] == ')' then
      if depth == 0 then Some(([], s[1..])) else Prepend(')', ReadLiteral(s[1..], depth - 1))
    else if s[0] == '(' then Prepend('(', ReadLiteral(s[1..], depth + 1))
    else if s[0] == '\r' then Prepend('\n', ReadLiteral(if |s| > 1 && s[1] == '\n' then s[2..] else s[1..], depth))
    else Prepend(s[0], ReadLiteral(s[1..], depth))
  }

  /** Text with every end-of-line marker replaced by a line feed. */
  function Normalized(s: string): string
    decreases |s|
  {
    if s == [] then []
    else if s[0] == '\r' then "\n" + Normalized(if |s| > 1 && s[1] == '\n' then s[2..] else s[1..])
    else [s[0]] + Normalized(s[1..])
  }

  lemma {:induction false} NormalizedHasNoReturn(s: string)
    ensures '\r' !in Normalized(s) && ('\r' !in s ==> Normalized(s) == s)
    decreases |s|
  {
    if s != [] {
      if s[0] == '\r' {
        NormalizedHasNoReturn(if |s| > 1 && s[1] == '\n' then s[2..] else s[1..]);
      } else {
        NormalizedHasNoReturn(s[1..]);
      }
    }
  }

  lemma ReadEscaped(c: char, after: string)
    requires c != '\r'
    ensures ReadLiteral(EscapeChar(c) + after, 0) == Prepend(c, ReadLiteral(after, 0))
  {
    var whole := EscapeChar(c) + after;
    if |EscapeChar(c)| == 2 {
      assert whole[1] == c && whole[2..] == after && whole[1..][0] == c;
    } else {
      assert whole[0] == c && whole[1..] == after;
    }
  }

  lemma ReadReturn(after: string)
    requires after != []
    ensures ReadLiteral(['\r'] + after, 0) == Prepend('\n', ReadLiteral(if after[0] == '\n' then after[1..] else after, 0))
  {
    var whole := ['\r'] + after;
    assert whole[1..] == after && whole[2..] == after[1..];
  }

  /** An escaped text reads back as itself, up to its end-of-line markers, and the reader
      stops at the parenthesis that the writer closes it with. */
  lemma {:induction false} LiteralRoundTrip(s: string, rest: string)
    ensures ReadLiteral(Escape(s) + ")" + rest, 0) == Some((Normalized(s), rest))
    decreases |s|
  {
    hide ReadLiteral, Escape, EscapeChar, Normalized;
    NormalizedSteps(s);
    if s == [] {
      EscapeNothing();
      assert Escape(s) + ")" + rest == ")" + rest;
      LiteralEnds(rest);
    } else {
      var c, tail := s[0], s[1..];
      var after := Escape(tail) + ")" + rest;
      assert s == [c] + tail;
      EscapeByChar(c, tail);
      assert Escape(s) + ")" + rest == EscapeChar(c) + after;
      if c != '\r' {
        LiteralRoundTrip(tail, rest);
        ReadEscaped(c, after);
        return;
      }
      EscapeReturns();
      if tail != [] && tail[0] == '\n' {
        LiteralRoundTrip(tail[1..], rest);
        assert tail == ['\n'] + tail[1..];
        EscapeByChar('\n', tail[1..]);
        assert after == ['\n'] + (Escape(tail[1..]) + ")" + rest);
        ReadReturn(after);
      } else {
        LiteralRoundTrip(tail, rest);
        NoLineFeedFirst(tail, rest);
        ReadReturn(after);
      }
    }
  }

  lemma NormalizedSteps(s: string)
    ensures s == [] ==> Normalized(s) == []
    ensures s != [] && s[0] == '\r' ==>
      Normalized(s) == ['\n'] + Normalized(if |s| > 1 && s[1] == '\n' then s[1..][1..] else s[1..])
    ensures s != [] && s[0] != '\r' ==> Normalized(s) == [s[0]] + Normalized(s[1..])
  {
    if |s| > 1 { assert s[2..] == s[1..][1..]; }
  }

  lemma LiteralEnds(rest: string)
    ensures ReadLiteral(")" + rest, 0) == Some(([], rest))
  {
    assert (")" + rest)[1..] == rest;
  }

  lemma EscapeReturns()
    ensures EscapeChar('\r') == ['\r'] && EscapeChar('\n') == ['\n']
  {
  }

  lemma NoLineFeedFirst(tail: string, rest: string)
    requires tail == [] || tail[0] != '\n'
    ensures (Escape(tail) + ")" + rest)[0] != '\n'
  {
    if tail == [] {
      EscapeByChar('x', []);
    } else {
      assert tail == [tail[0]] + tail[1..];
      EscapeByChar(tail[0], tail[1..]);
    }
  }

  // ---------------------------------------------------------------- the content stream of a page

  const NEXT_LINE := "0 -15 Td\n"

  function Show(line: string): string {
    "(" + Escape(line) + ") Tj\n"
  }

  function Shown(lines: seq<string>): string
    requires lines != []
  {
    if |lines| == 1 then Show(lines[0]) else Show(lines[0]) + NEXT_LINE + Shown(lines[1..])
  }

  function Prologue(lowContrast: bool): string {
    "BT\n/F1 12 Tf\n" + (if lowContrast then "0.85 0.85 0.85 rg\n" else "0 0 0 rg\n") + "100 700 Td\n"
  }

  /** The text operators that show the lines of a text below each other. */
  function PageStream(text: string, lowContrast: bool): string {
    Prologue(lowContrast) + Shown(Split(text, '\n')) + "ET"
  }

  /** What is still to be written from the i-th line on. */
  function Remaining(lines: seq<string>, i: nat): string
    requires i <= |lines|
  {
    if i == |lines| then "" else Shown(lines[i..])
  }

  lemma WriteLine(done: string, lines: seq<string>, i: nat)
    requires i < |lines|
    ensures done + Remaining(lines, i)
            == done + Show(lines[i]) + (if i < |lines| - 1 then NEXT_LINE else "") + Remaining(lines, i + 1)
    ensures done + Show(lines[i]) + "" == done + Show(lines[i])
  {
    hide Show;
    assert lines[i..][1..] == lines[i + 1..];
  }

  method WritePageStream(text: string, lowContrast: bool) returns (s: string)
    ensures s == PageStream(text, lowContrast)
  {
    var lines := Split(text, '\n');
    ghost var whole := Prologue(lowContrast) + Shown(lines);
    s := Prologue(lowContrast);
    assert s + Remaining(lines, 0) == whole by { assert lines[0..] == lines; }
    for i := 0 to |lines|
      invariant s + Remaining(lines, i) == whole
    {
      WriteLine(s, lines, i);
      hide Remaining, Show, Shown, Prologue;
      s := s + Show(lines[i]);
      if i < |lines| - 1 {
        s := s + NEXT_LINE;
      }
    }
    assert s + "" == s;
    s := s + "ET";
  }

  /** Reads the lines shown by a content stream, after its prologue. */
  function ReadShown(s: string): Option<seq<string>>
    decreases |s|
  {
    if s == [] || s[0] != '(' then None
    else
      var literal := ReadLiteral(s[1..], 0);
      if literal == None || !(" Tj\n" <= literal.value.1) then None
      else
        var rest := literal.value.1[4..];
        if rest == "ET" then Some([literal.value.0])
        else if !(NEXT_LINE <= rest) then None
        else
          var more := ReadShown(rest[|NEXT_LINE|..]);
          if more == None then None else Some([literal.value.0] + more.value)
  }

  function NormalizedLines(lines: seq<string>): (r: seq<string>)
    ensures |r| == |lines| && forall i :: 0 <= i < |lines| ==> r[i] == Normalized(lines[i])
  {
    if lines == [] then [] else [Normalized(lines[0])] + NormalizedLines(lines[1..])
  }

  lemma ReadOne(line: string, after: string)
    ensures var read := ReadShown(Show(line) + after);
            && (after == "ET" ==> read == Some([Normalized(line)]))
            && (after != "ET" && NEXT_LINE <= after ==>
                  var more := ReadShown(after[|NEXT_LINE|..]);
                  read == if more == None then None else Some([Normalized(line)] + more.value))
  {
    var s := Show(line) + after;
    LiteralRoundTrip(line, " Tj\n" + after);
    assert s[1..] == Escape(line) + ")" + (" Tj\n" + after);
    assert (" Tj\n" + after)[4..] == after;
    hide Escape, Normalized, ReadLiteral;
  }

  lemma {:induction false} ShownRoundTrip(lines: seq<string>)
    requires lines != []
    ensures ReadShown(Shown(lines) + "ET") == Some(NormalizedLines(lines))
  {
    hide ReadShown, Show, Normalized;
    if |lines| == 1 {
      ReadOne(lines[0], "ET");
      assert NormalizedLines(lines) == [Normalized(lines[0])];
    } else {
      var after := NEXT_LINE + (Shown(lines[1..]) + "ET");
      assert Shown(lines) + "ET" == Show(lines[0]) + after;
      assert after[0] == '0' && after[|NEXT_LINE|..] == Shown(lines[1..]) + "ET";
      ReadOne(lines[0], after);
      ShownRoundTrip(lines[1..]);
    }
  }

  lemma {:induction false} JoinHasNoReturn(parts: seq<string>)
    requires parts != [] && forall i :: 0 <= i < |parts| ==> '\r' !in parts[i]
    ensures '\r' !in Join(parts, '\n')
  {
    if |parts| > 1 {
      JoinHasNoReturn(parts[1..]);
    }
  }

  lemma {:induction false} PartsComeFromText(s: string, at: char, c: char)
    requires c !in s
    ensures forall i :: 0 <= i < |Split(s, at)| ==> c !in Split(s, at)[i]
  {
    if s != [] {
      PartsComeFromText(s[1..], at, c);
    }
  }

  /** A reader of the content stream gets back one string for every line, and the text
      itself exactly if it has no carriage return. */
  lemma PageTextSurvives(text: string, lowContrast: bool)
    ensures Prologue(lowContrast) <= PageStream(text, lowContrast)
    ensures var read := ReadShown(PageStream(text, lowContrast)[|Prologue(lowContrast)|..]);
            read.Some? && |read.value| == |Split(text, '\n')|
            && (Join(read.value, '\n') == text <==> '\r' !in text)
  {
    var lines := Split(text, '\n');
    assert PageStream(text, lowContrast)[|Prologue(lowContrast)|..] == Shown(lines) + "ET";
    hide Prologue, PageStream, Shown, ReadShown, Normalized;
    ShownRoundTrip(lines);
    SplitThenJoin(text, '\n');
    var read := NormalizedLines(lines);
    forall i | 0 <= i < |lines| ensures '\r' !in read[i] && ('\r' !in lines[i] ==> read[i] == lines[i]) {
      NormalizedHasNoReturn(lines[i]);
    }
    JoinHasNoReturn(read);
    if '\r' !in text {
      PartsComeFromText(text, '\n', '\r');
      assert read == lines;
    }
  }

  // ---------------------------------------------------------------- transactions over pages

  function PerPage(count: nat, pages: nat): nat
    requires pages > 0
  {
    var share := count / pages + if count % pages > 0 then 1 else 0;
    if share < 1 then 1 else share
  }

  /** A slice whose bounds may lie beyond the end. */
  function Clipped<T>(xs: seq<T>, start: nat, end: nat): seq<T>
    requires start <= end
  {
    var b := if end < |xs| then end else |xs|;
    if start < b then xs[start..b] else []
  }

  function OnPage<T>(xs: seq<T>, page: nat, pages: nat): seq<T>
    requires pages > 0
  {
    Clipped(xs, page * PerPage(|xs|, pages), page * PerPage(|xs|, pages) + PerPage(|xs|, pages))
  }

  function FirstPages<T>(xs: seq<T>, k: nat, pages: nat): seq<T>
    requires pages > 0
  {
    if k == 0 then [] else FirstPages(xs, k - 1, pages) + OnPage(xs, k - 1, pages)
  }

  function Least(a: nat, b: nat): nat {
    if a < b then a else b
  }

  lemma ClipNext<T>(xs: seq<T>, start: nat, per: nat)
    ensures xs[..Least(start, |xs|)] + Clipped(xs, start, start + per) == xs[..Least(start + per, |xs|)]
    ensures |Clipped(xs, start, start + per)| <= per
  {
  }

  lemma {:induction false} FirstPagesArePrefix<T>(xs: seq<T>, k: nat, pages: nat)
    requires pages > 0
    ensures FirstPages(xs, k, pages) == xs[..Least(k * PerPage(|xs|, pages), |xs|)]
  {
    hide PerPage, Clipped;
    if k > 0 {
      var per := PerPage(|xs|, pages);
      FirstPagesArePrefix(xs, k - 1, pages);
      assert k * per == (k - 1) * per + per;
      ClipNext(xs, (k - 1) * per, per);
    }
  }

  lemma PagesSuffice(count: nat, pages: nat)
    requires pages > 0
    ensures pages * PerPage(count, pages) >= count
  {
    var q, r := count / pages, count % pages;
    assert count == pages * q + r;
    assert pages * (q + 1) == pages * q + pages;
  }

  /** The share of a page is the least number, but at least one, for which the pages suffice. */
  lemma ShareIsLeast(count: nat, pages: nat, n: nat)
    requires pages > 0
    ensures PerPage(count, pages) <= n <==> 1 <= n && count <= pages * n
  {
    var q, r := count / pages, count % pages;
    assert count == pages * q + r;
    if n <= q { Scaled(pages, n, q); } else { Scaled(pages, q + 1, n); }
    assert pages * (q + 1) == pages * q + pages;
    if n == q { assert pages * n == pages * q; }
  }

  lemma {:induction false} Scaled(k: nat, a: nat, b: nat)
    requires a <= b
    ensures k * a <= k * b
    ensures a < b && k > 0 ==> k * a + k <= k * b
    decreases b - a
  {
    if a < b {
      Scaled(k, a, b - 1);
      assert k * b == k * (b - 1) + k;
    }
  }

  /** The pages together show every transaction once, in order, whatever the number of
      pages, and no page shows more than its share. */
  lemma PagesShowEverything<T>(xs: seq<T>, pages: nat, page: nat)
    requires page < pages
    ensures FirstPages(xs, pages, pages) == xs && |OnPage(xs, page, pages)| <= PerPage(|xs|, pages)
  {
    FirstPagesArePrefix(xs, pages, pages);
    PagesSuffice(|xs|, pages);
    ClipNext(xs, page * PerPage(|xs|, pages), PerPage(|xs|, pages));
    hide PerPage, FirstPages, Clipped;
  }
}
