/** A reader of whole PDF files: from the last line to the table, from the table to the
    objects, from the catalog to the pages, and from each page to the lines it shows
    (sections 7.5 and 7.7 of ISO 32000-1). What the writer wrote is read back. A dictionary
    is read only with its keys in the order in which the writer puts them and with its
    spacing, although the standard allows any. */
module PdfReader {
  import opened Numerals
  import opened Outcomes
  import opened PdfText
  import opened PdfWriter
  import opened Splitting

  // ---------------------------------------------------------------- reading forwards

  predicate IsDigit(c: char) {
    '0' <= c <= '9'
  }

  /** What follows a key, if it is there. */
  function After(s: string, key: string): Option<string> {
    if key <= s then Some(s[|key|..]) else None
  }

  function Digits(s: string): (r: string)
    ensures r <= s && forall i :: 0 <= i < |r| ==> IsDigit(r[i])
  {
    if s == [] || !IsDigit(s[0]) then [] else [s[0]] + Digits(s[1..])
  }

  /** A number and what follows it. */
  function Numeral(s: string): Option<(nat, string)> {
    var digits := Digits(s);
    if digits == [] then None else Some((Parsed(digits), s[|digits|..]))
  }

  lemma AfterKey(key: string, t: string)
    ensures After(key + t, key) == Some(t)
  {
    assert (key + t)[|key|..] == t;
  }

  lemma {:induction false} DigitsOf(d: string, t: string)
    requires forall i :: 0 <= i < |d| ==> IsDigit(d[i])
    requires t == [] || !IsDigit(t[0])
    ensures Digits(d + t) == d
  {
    if d == [] {
      assert d + t == t;
    } else {
      assert (d + t)[1..] == d[1..] + t;
      DigitsOf(d[1..], t);
    }
  }

  lemma NumeralOf(n: nat, t: string)
    requires t == [] || !IsDigit(t[0])
    ensures Numeral(Decimal(n) + t) == Some((n, t))
  {
    DigitsOf(Decimal(n), t);
    DecimalShape(n, 1);
    assert (Decimal(n) + t)[|Decimal(n)|..] == t;
  }

  /** An indirect reference: the number of an object, and what follows. */
  function ReadReference(s: string): Option<(nat, string)> {
    var number := Numeral(s);
    if number == None then None
    else
      var rest := After(number.value.1, " 0 R");
      if rest == None then None else Some((number.value.0, rest.value))
  }

  lemma ReferenceOf(n: nat, t: string)
    ensures ReadReference(Decimal(n) + (" 0 R" + t)) == Some((n, t))
  {
    NumeralOf(n, " 0 R" + t);
    AfterKey(" 0 R", t);
  }

  // ---------------------------------------------------------------- the table and its objects

  /** The digits that end at a position. */
  function DigitsBefore(d: string, end: nat): (r: string)
    requires end <= |d|
    ensures |r| <= end && r == d[end - |r|..end] && forall i :: 0 <= i < |r| ==> IsDigit(r[i])
  {
    if end == 0 || !IsDigit(d[end - 1]) then [] else DigitsBefore(d, end - 1) + [d[end - 1]]
  }

  /** The number on the line before the last one. */
  function ReadStart(d: string): Option<nat> {
    if |d| < |EofKey()| || !StandsAt(d, |d| - |EofKey()|, EofKey()) then None
    else
      var end := |d| - |EofKey()|;
      var digits := DigitsBefore(d, end);
      if digits == [] || end - |digits| < |StartKey()| || !StandsAt(d, end - |digits| - |StartKey()|, StartKey()) then None
      else Some(Parsed(digits))
  }

  /** Where the rows of the table begin, and how many there are. */
  datatype Table = Table(rows: nat, size: nat)

  function ReadTable(d: string): Option<Table> {
    var start := ReadStart(d);
    if start == None || start.value > |d| then None
    else
      var size := After(d[start.value..], TableKey() + "0 ");
      var number := if size == None then None else Numeral(size.value);
      if number == None then None
      else
        var rows := After(number.value.1, "\n");
        if rows == None then None else Some(Table(|d| - |rows.value|, number.value.0))
  }

  /** The content of object k and whatever follows it, by way of row k of the table. */
  function ReadObject(d: string, t: Table, k: nat): Option<string> {
    var at := t.rows + 20 * k;
    if k == 0 || k >= t.size || at + 20 > |d| || !IsRow(d[at..at + 20]) then None
    else
      var offset := Parsed(d[at..at + 20][..10]);
      if offset > |d| then None else After(d[offset..], Decimal(k) + " 0 obj\n")
  }

  // ---------------------------------------------------------------- the page tree

  /** The number of the catalog, from the trailer. */
  function ReadRoot(d: string, t: Table): Option<nat> {
    var at := t.rows + 20 * t.size;
    if at > |d| then None
    else
      var s := After(d[at..], SizeKeys());
      var size := if s == None then None else Numeral(s.value);
      var root := if size == None then None else After(size.value.1, " /Root ");
      var number := if root == None then None else ReadReference(root.value);
      if number == None || size.value.0 != t.size then None else Some(number.value.0)
  }

  /** The number of the page tree, from a catalog with the keys in the writer's order. */
  function ReadCatalog(s: string): Option<nat> {
    var pages := After(s, "<< /Type /Catalog /Pages ");
    var number := if pages == None then None else ReadReference(pages.value);
    if number == None then None else Some(number.value.0)
  }

  /** References separated by blanks, up to the closing bracket, and what follows it. */
  function ReadReferences(s: string): Option<(seq<nat>, string)>
    decreases |s|
  {
    var first := ReadReference(s);
    if first == None then None
    else if " ]" <= first.value.1 then Some(([first.value.0], first.value.1[2..]))
    else if !(" " <= first.value.1) || |first.value.1| > |s| then None
    else
      var more := ReadReferences(first.value.1[1..]);
      if more == None then None else Some(([first.value.0] + more.value.0, more.value.1))
  }

  /** The numbers of the pages, from a page tree with the keys in the writer's order; their
      count must be right. */
  function ReadKids(s: string): Option<seq<nat>> {
    var kids := After(s, "<< /Type /Pages /Kids [ ");
    if kids == None then None
    else
      var read := if " ]" <= kids.value then Some(([], kids.value[2..])) else ReadReferences(kids.value);
      var rest := if read == None then None else After(read.value.1, " /Count ");
      var count := if rest == None then None else Numeral(rest.value);
      if count == None || count.value.0 != |read.value.0| then None else Some(read.value.0)
  }

  /** The numbers of the stream and of the font of a page with the keys in the writer's
      order. */
  function ReadPage(s: string): Option<(nat, nat)> {
    var page := After(s, PageKeys());
    var content := if page == None then None else ReadReference(page.value);
    var fonts := if content == None then None else After(content.value.1, " /Resources << /Font << /F1 ");
    var font := if fonts == None then None else ReadReference(fonts.value);
    if font == None then None else Some((content.value.0, font.value.0))
  }

  /** As many bytes as the stream says it has. */
  function ReadStream(s: string): Option<string> {
    var start := After(s, LengthKey());
    var length := if start == None then None else Numeral(start.value);
    var data := if length == None then None else After(length.value.1, StreamKey());
    if data == None || |data.value| < length.value.0 || !(EndKey() <= data.value[length.value.0..]) then None
    else Some(data.value[..length.value.0])
  }

  /** The lines a content stream shows, in either colour. */
  function ReadLines(stream: string): Option<seq<string>> {
    var dark, light := After(stream, Prologue(false)), After(stream, Prologue(true));
    if dark.Some? then ReadShown(dark.value) else if light.Some? then ReadShown(light.value) else None
  }

  /** The stream of page object k, if its font is there as well. */
  function ReadPageStream(d: string, t: Table, k: nat): Option<string> {
    var s := ReadObject(d, t, k);
    var parts := if s == None then None else ReadPage(s.value);
    if parts == None then None
    else
      var content, font := ReadObject(d, t, parts.value.0), ReadObject(d, t, parts.value.1);
      if content == None || font == None || !(Font() <= font.value) then None else ReadStream(content.value)
  }

  function ReadPageLines(d: string, t: Table, k: nat): Option<seq<string>> {
    var stream := ReadPageStream(d, t, k);
    if stream == None then None else ReadLines(stream.value)
  }

  /** The numbers of the pages, from the page tree with this number. */
  function ReadPageTree(d: string, t: Table, k: nat): Option<seq<nat>> {
    var tree := ReadObject(d, t, k);
    if tree == None then None else ReadKids(tree.value)
  }

  function ReadAllPages(d: string, t: Table, kids: seq<nat>): Option<seq<seq<string>>> {
    if kids == [] then Some([])
    else
      var front, last := ReadAllPages(d, t, kids[..|kids| - 1]), ReadPageLines(d, t, kids[|kids| - 1]);
      if front == None || last == None then None else Some(front.value + [last.value])
  }

  /** The lines of every page of a document, in order. */
  function ReadPdf(d: string): Option<seq<seq<string>>> {
    var table := ReadTable(d);
    var root := if table == None then None else ReadRoot(d, table.value);
    var catalog := if root == None then None else ReadObject(d, table.value, root.value);
    var tree := if catalog == None then None else ReadCatalog(catalog.value);
    var kids := if tree == None then None else ReadPageTree(d, table.value, tree.value);
    if kids == None then None else ReadAllPages(d, table.value, kids.value)
  }

  // ---------------------------------------------------------------- each part is read back

  lemma StandsFirst(d: string, at: nat, piece: string)
    requires StandsAt(d, at, piece)
    ensures at + |piece| <= |d| && d[at..] == piece + d[at + |piece|..]
  {
  }

  lemma {:induction false} DigitsBeforeAre(d: string, at: nat, digits: string)
    requires 0 < at && StandsAt(d, at, digits) && !IsDigit(d[at - 1]) && forall i :: 0 <= i < |digits| ==> IsDigit(digits[i])
    ensures DigitsBefore(d, at + |digits|) == digits
  {
    if digits != [] {
      var front := digits[..|digits| - 1];
      assert d[at..at + |digits|][..|front|] == d[at..at + |front|];
      assert d[at..at + |digits|][|front|] == d[at + |front|];
      DigitsBeforeAre(d, at, front);
    }
  }

  lemma LastLinesRead(d: string, digits: string)
    requires digits != [] && (forall i :: 0 <= i < |digits| ==> '0' <= digits[i] <= '9')
    requires |d| >= |StartKey()| + |digits| + |EofKey()| && StandsAt(d, |d| - |EofKey()|, EofKey())
    requires StandsAt(d, |d| - |EofKey()| - |digits|, digits)
    requires StandsAt(d, |d| - |EofKey()| - |digits| - |StartKey()|, StartKey())
    ensures ReadStart(d) == Some(Parsed(digits))
  {
    hide Parsed, EofKey, StartKey, StandsAt, DigitsBefore, Decimal;
    StartKeyEnds();
    var at := |d| - |EofKey()| - |digits|;
    LastOf(d, at - |StartKey()|, StartKey());
    DigitsBeforeAre(d, at, digits);
  }

  lemma StartKeyEnds()
    ensures StartKey() != [] && StartKey()[|StartKey()| - 1] == '\n'
  {
  }

  lemma LastOf(d: string, at: nat, piece: string)
    requires StandsAt(d, at, piece) && piece != []
    ensures at + |piece| <= |d| && d[at + |piece| - 1] == piece[|piece| - 1]
  {
    assert d[at..at + |piece|][|piece| - 1] == d[at + |piece| - 1];
  }

  lemma StartRead(objects: seq<string>, info: nat)
    ensures ReadStart(Document(objects, info)) == Some(TableStart(objects))
  {
    hide Document, Decimal, Parsed, TableStart, StandsAt, EofKey, StartKey, ReadStart;
    StartPointsAtTable(objects, info);
    LastLinesRead(Document(objects, info), Decimal(TableStart(objects)));
  }

  lemma TableText(size: nat, objects: seq<string>, rest: string)
    requires size == |objects| + 1
    ensures TableKey() + TableSize(objects) + rest == (TableKey() + "0 ") + (Decimal(size) + ("\n" + rest))
  {
    hide Decimal;
  }

  lemma TableRead(objects: seq<string>, info: nat)
    ensures ReadTable(Document(objects, info)) == Some(Table(|TableHead(objects)|, |objects| + 1))
  {
    hide Document, TableHead, TableStart, TableKey, TableSize, Decimal, Body, Numeral, After, ReadStart, StandsAt;
    var d, start, size := Document(objects, info), TableStart(objects), |objects| + 1;
    StartRead(objects, info);
    OffsetsGrow(objects, 0);
    HeadStands(objects, info);
    var rest := d[|TableHead(objects)|..];
    StandsFirst(d, start, TableKey() + TableSize(objects));
    TableText(size, objects, rest);
    AfterKey(TableKey() + "0 ", Decimal(size) + ("\n" + rest));
    NumeralOf(size, "\n" + rest);
    AfterKey("\n", rest);
  }

  lemma HeadStands(objects: seq<string>, info: nat)
    ensures |Body(objects)| <= |Document(objects, info)|
    ensures StandsAt(Document(objects, info), |Body(objects)|, TableKey() + TableSize(objects))
    ensures |TableHead(objects)| == |Body(objects)| + |TableKey() + TableSize(objects)|
    ensures |TableHead(objects)| <= |Document(objects, info)|
  {
    hide StandsAt, Body, TableKey, TableSize, FreeRow, Document, Concat;
    var piece := TableKey() + TableSize(objects);
    StandsLast(Body(objects), piece);
    assert Body(objects) + piece == TableHead(objects);
    StandsOn(TableHead(objects), |Body(objects)|, piece, FreeRow());
    StandsOn(TableHead(objects) + FreeRow(), |Body(objects)|, piece, Concat(Rows(objects)));
    StandsInDocument(objects, info, |Body(objects)|, piece);
    assert |TableHead(objects)| <= |Document(objects, info)| by { StandsEnd(Document(objects, info), |Body(objects)|, piece); }
  }

  lemma StandsEnd(d: string, at: nat, piece: string)
    requires StandsAt(d, at, piece)
    ensures at + |piece| <= |d|
  {
  }

  lemma ObjectText(number: nat, content: string, rest: string)
    ensures Object(number, content) + rest == (Decimal(number) + " 0 obj\n") + (content + ("\nendobj\n" + rest))
  {
    hide Decimal;
  }

  lemma RowRead(d: string, t: Table, k: nat, row: string)
    requires 0 < k < t.size && IsRow(row) && StandsAt(d, t.rows + 20 * k, row) && Parsed(row[..10]) <= |d|
    ensures ReadObject(d, t, k) == After(d[Parsed(row[..10])..], Decimal(k) + " 0 obj\n")
  {
    hide Decimal, Parsed, After;
  }

  /** Object k + 1 is read with its content first. */
  lemma ObjectRead(contents: seq<string>, info: nat, k: nat) returns (rest: string)
    requires k < |contents| && TableStart(Objects(contents)) < Power(10)
    ensures var objects := Objects(contents);
            ReadObject(Document(objects, info), Table(|TableHead(objects)|, |objects| + 1), k + 1) == Some(contents[k] + rest)
  {
    hide Document, TableHead, Objects, Object, Decimal, Power, TableStart, StandsAt, IsRow, ReadObject, After, Parsed;
    var objects := Objects(contents);
    var d := Document(objects, info);
    var row := TableFindsObject(objects, info, k);
    ObjectAt(contents, k);
    DigitsInRow(row);
    var offset := Parsed(row[..10]);
    StandsFirst(d, offset, objects[k]);
    RowRead(d, Table(|TableHead(objects)|, |objects| + 1), k + 1, row);
    ObjectText(k + 1, contents[k], d[offset + |objects[k]|..]);
    rest := "\nendobj\n" + d[offset + |objects[k]|..];
    AfterKey(Decimal(k + 1) + " 0 obj\n", contents[k] + rest);
  }

  lemma DigitsInRow(row: string)
    requires IsRow(row)
    ensures |row| == 20 && forall i :: 0 <= i < 10 ==> '0' <= row[..10][i] <= '9'
  {
  }

  lemma TrailerText(objects: seq<string>, info: nat, size: nat, end: string) returns (last: string)
    requires size == |objects| + 1
    ensures TrailerKeys(objects, info) + end == SizeKeys() + (Decimal(size) + (" /Root " + ("1" + (" 0 R" + last))))
  {
    hide Decimal, SizeKeys;
    last := " /Info " + Decimal(info) + TrailerEnd() + end;
    assert InfoKeys() == " /Root " + "1" + " 0 R" + " /Info ";
  }

  lemma RootRead(objects: seq<string>, info: nat)
    requires TableStart(objects) < Power(10)
    ensures ReadRoot(Document(objects, info), Table(|TableHead(objects)|, |objects| + 1)) == Some(1)
  {
    hide Document, WithTable, TableHead, SizeKeys, TrailerKeys, Decimal, TableStart, Power, Numeral, After, ReadReference, StandsAt;
    var d, at, size := Document(objects, info), |WithTable(objects)|, |objects| + 1;
    TableLength(objects);
    TrailerStands(objects, info);
    StandsEnd(d, at, TrailerKeys(objects, info));
    StandsFirst(d, at, TrailerKeys(objects, info));
    var last := TrailerText(objects, info, size, d[at + |TrailerKeys(objects, info)|..]);
    AfterKey(SizeKeys(), Decimal(size) + (" /Root " + ("1" + (" 0 R" + last))));
    NumeralOf(size, " /Root " + ("1" + (" 0 R" + last)));
    AfterKey(" /Root ", "1" + (" 0 R" + last));
    OneDigit(1);
    ReferenceOf(1, last);
  }

  lemma OneDigit(n: nat)
    requires n < 10
    ensures Decimal(n) == ['0' + n as char]
  {
  }

  lemma TableLength(objects: seq<string>)
    requires TableStart(objects) < Power(10)
    ensures |WithTable(objects)| == |TableHead(objects)| + 20 * (|objects| + 1)
  {
    var rows := Rows(objects);
    forall i | 0 <= i < |rows| ensures |rows[i]| == 20 {
      OffsetsGrow(objects, i);
      RowRoundTrip(Offset(objects, i));
    }
    UniformRows(rows, |rows|);
    assert rows[..|rows|] == rows;
  }

  lemma TrailerStands(objects: seq<string>, info: nat)
    ensures StandsAt(Document(objects, info), |WithTable(objects)|, TrailerKeys(objects, info))
  {
    hide WithTable, TrailerKeys, Document;
    var t := TrailerKeys(objects, info);
    assert StandsAt(t, 0, t);
    StandsInTrailer(objects, info, 0, t);
  }

  lemma CatalogRead(rest: string)
    ensures ReadCatalog(Catalog() + rest) == Some(2)
  {
    hide Decimal, Numeral, ReadReference, After;
    var key := "<< /Type /Catalog /Pages ";
    assert Catalog() + rest == key + ("2" + (" 0 R" + (" >>" + rest)));
    AfterKey(key, "2" + (" 0 R" + (" >>" + rest)));
    OneDigit(2);
    ReferenceOf(2, " >>" + rest);
  }

  lemma {:induction false} ReferencesRead(refs: seq<string>, numbers: seq<nat>, rest: string)
    requires |refs| == |numbers| > 0 && forall i :: 0 <= i < |refs| ==> refs[i] == Reference(numbers[i])
    ensures ReadReferences(Join(refs, ' ') + (" ]" + rest)) == Some((numbers, rest))
  {
    hide ReadReference, Decimal;
    var s := Join(refs, ' ') + (" ]" + rest);
    if |refs| == 1 {
      assert s == Decimal(numbers[0]) + (" 0 R" + (" ]" + rest));
      ReferenceOf(numbers[0], " ]" + rest);
      assert (" ]" + rest)[2..] == rest;
      assert numbers == [numbers[0]];
    } else {
      var tail := Join(refs[1..], ' ') + (" ]" + rest);
      assert s == Decimal(numbers[0]) + (" 0 R" + ([' '] + tail));
      ReferenceOf(numbers[0], [' '] + tail);
      ReferencesRead(refs[1..], numbers[1..], rest);
      NoBracket(refs[1..], numbers[1..], " ]" + rest);
      assert ([' '] + tail)[1..] == tail;
      assert numbers == [numbers[0]] + numbers[1..];
    }
  }

  lemma NoBracket(refs: seq<string>, numbers: seq<nat>, rest: string)
    requires |refs| == |numbers| > 0 && forall i :: 0 <= i < |refs| ==> refs[i] == Reference(numbers[i])
    ensures |Join(refs, ' ')| > 0 && IsDigit((Join(refs, ' ') + rest)[0])
  {
    assert refs[0][0] == Decimal(numbers[0])[0];
  }

  function PageNumbers(pages: nat): (r: seq<nat>)
    ensures |r| == pages && forall i :: 0 <= i < pages ==> r[i] == PageNumber(i)
  {
    seq(pages, i requires 0 <= i < pages => PageNumber(i))
  }

  lemma PagesText(pages: nat, rest: string)
    ensures PagesNode(pages) + rest
            == "<< /Type /Pages /Kids [ " + (Kids(pages) + (" ]" + (" /Count " + (Decimal(pages) + (" >>" + rest)))))
  {
    hide Decimal, Kids;
    assert " ] /Count " == " ]" + " /Count ";
  }

  lemma KidsRead(pages: nat, rest: string)
    ensures ReadKids(PagesNode(pages) + rest) == Some(PageNumbers(pages))
  {
    hide Decimal, Numeral, ReadReferences, Join, Reference, PagesNode;
    var key, count := "<< /Type /Pages /Kids [ ", " /Count " + (Decimal(pages) + (" >>" + rest));
    PagesText(pages, rest);
    AfterKey(key, Kids(pages) + (" ]" + count));
    AfterKey(" /Count ", Decimal(pages) + (" >>" + rest));
    NumeralOf(pages, " >>" + rest);
    if pages == 0 {
      assert Kids(0) + (" ]" + count) == " ]" + count && (" ]" + count)[2..] == count;
      assert PageNumbers(0) == [];
    } else {
      ReferencesRead(KidReferences(pages), PageNumbers(pages), count);
      NoBracket(KidReferences(pages), PageNumbers(pages), " ]" + count);
    }
  }

  lemma PageSplit(content: nat, font: nat, rest: string)
    ensures var last := Decimal(font) + (" 0 R" + (" >> >> >>" + rest));
            PageNode(content, font) + rest
            == PageKeys() + (Decimal(content) + (" 0 R" + (" /Resources << /Font << /F1 " + last)))
  {
    hide Decimal, PageKeys;
    assert FontKeys() == " 0 R" + " /Resources << /Font << /F1 " && PageEnd() == " 0 R" + " >> >> >>";
  }

  lemma PageRead(content: nat, font: nat, rest: string)
    ensures ReadPage(PageNode(content, font) + rest) == Some((content, font))
  {
    hide Decimal, ReadReference, PageKeys, After, PageNode;
    var key := " /Resources << /Font << /F1 ";
    var last := Decimal(font) + (" 0 R" + (" >> >> >>" + rest));
    PageSplit(content, font, rest);
    AfterKey(PageKeys(), Decimal(content) + (" 0 R" + (key + last)));
    ReferenceOf(content, key + last);
    AfterKey(key, last);
    ReferenceOf(font, " >> >> >>" + rest);
  }

  lemma StreamRead(stream: string, rest: string)
    ensures ReadStream(StreamNode(stream) + rest) == Some(stream)
  {
    hide Decimal, Numeral, After, LengthKey, EndKey;
    var data := stream + (EndKey() + rest);
    assert StreamNode(stream) + rest == LengthKey() + (Decimal(|stream|) + (StreamKey() + data));
    AfterKey(LengthKey(), Decimal(|stream|) + (StreamKey() + data));
    NumeralOf(|stream|, StreamKey() + data);
    AfterKey(StreamKey(), data);
    assert data[..|stream|] == stream && data[|stream|..] == EndKey() + rest;
  }

  /** The lines a reader of the text's stream gets. */
  function LinesOf(text: string): seq<string> {
    NormalizedLines(Split(text, '\n'))
  }

  lemma LinesRead(text: string, lowContrast: bool)
    ensures ReadLines(PageStream(text, lowContrast)) == Some(LinesOf(text))
  {
    var lines := Split(text, '\n');
    var s := Shown(lines) + "ET";
    assert PageStream(text, lowContrast) == Prologue(lowContrast) + s;
    AfterKey(Prologue(lowContrast), s);
    ColoursDiffer(s);
    hide ReadShown, Shown, Normalized;
    ShownRoundTrip(lines);
  }

  lemma ColoursDiffer(s: string)
    ensures After(Prologue(true) + s, Prologue(false)) == None
  {
    assert Prologue(false)[14] == ' ' && Prologue(true)[14] == '.';
    assert (Prologue(true) + s)[14] == '.';
  }

  // ---------------------------------------------------------------- the whole document

  lemma PageStreamRead(contents: seq<string>, info: nat, k: nat, content: nat, font: nat, stream: string)
    requires TableStart(Objects(contents)) < Power(10)
    requires 1 <= k <= |contents| && 1 <= content <= |contents| && 1 <= font <= |contents|
    requires contents[k - 1] == PageNode(content, font) && contents[content - 1] == StreamNode(stream)
    requires contents[font - 1] == Font()
    ensures var objects := Objects(contents);
            ReadPageStream(Document(objects, info), Table(|TableHead(objects)|, |objects| + 1), k) == Some(stream)
  {
    hide Document, TableHead, Objects, TableStart, Power, PageNode, StreamNode, Font, ReadObject, ReadPage, ReadStream;
    var page := ObjectRead(contents, info, k - 1);
    PageRead(content, font, page);
    var data := ObjectRead(contents, info, content - 1);
    StreamRead(stream, data);
    var last := ObjectRead(contents, info, font - 1);
    assert Font() <= Font() + last;
  }

  /** The lines of the first n pages. */
  function LinesOfPages(text: string, texts: seq<string>, n: nat): (r: seq<seq<string>>)
    requires texts == [] || n <= |texts|
    ensures |r| == n && forall p :: 0 <= p < n ==> r[p] == LinesOf(TextOfPage(text, texts, p))
  {
    seq(n, p requires 0 <= p < n => LinesOf(TextOfPage(text, texts, p)))
  }

  lemma {:induction false} PagesRead(text: string, pages: nat, texts: seq<string>, lowContrast: bool, info: nat, n: nat)
    requires (texts == [] || |texts| >= pages) && n <= pages
    requires TableStart(Objects(Contents(Streams(text, pages, texts, lowContrast)))) < Power(10)
    ensures var objects := Objects(Contents(Streams(text, pages, texts, lowContrast)));
            ReadAllPages(Document(objects, info), Table(|TableHead(objects)|, |objects| + 1), PageNumbers(pages)[..n])
            == Some(LinesOfPages(text, texts, n))
  {
    hide Document, TableHead, Objects, TableStart, Power, Streams, Contents, ReadPageLines, ReadAllPages, LinesOf;
    var objects := Objects(Contents(Streams(text, pages, texts, lowContrast)));
    var d, t := Document(objects, info), Table(|TableHead(objects)|, |objects| + 1);
    if n > 0 {
      PagesRead(text, pages, texts, lowContrast, info, n - 1);
      OnePageRead(text, pages, texts, lowContrast, info, n - 1);
      assert PageNumbers(pages)[..n] == PageNumbers(pages)[..n - 1] + [PageNumber(n - 1)];
      OneMorePage(d, t, PageNumbers(pages)[..n - 1], PageNumber(n - 1));
      assert LinesOfPages(text, texts, n) == LinesOfPages(text, texts, n - 1) + [LinesOf(TextOfPage(text, texts, n - 1))];
    } else {
      NoPages(d, t);
      assert PageNumbers(pages)[..0] == [] && LinesOfPages(text, texts, 0) == [];
    }
  }

  lemma NoPages(d: string, t: Table)
    ensures ReadAllPages(d, t, []) == Some([])
  {
  }

  lemma OneMorePage(d: string, t: Table, kids: seq<nat>, k: nat)
    ensures var front, last := ReadAllPages(d, t, kids), ReadPageLines(d, t, k);
            ReadAllPages(d, t, kids + [k]) == if front == None || last == None then None else Some(front.value + [last.value])
  {
    hide ReadPageLines;
    assert (kids + [k])[..|kids|] == kids;
  }

  lemma OnePageRead(text: string, pages: nat, texts: seq<string>, lowContrast: bool, info: nat, p: nat)
    requires (texts == [] || |texts| >= pages) && p < pages
    requires TableStart(Objects(Contents(Streams(text, pages, texts, lowContrast)))) < Power(10)
    ensures var objects := Objects(Contents(Streams(text, pages, texts, lowContrast)));
            ReadPageLines(Document(objects, info), Table(|TableHead(objects)|, |objects| + 1), PageNumber(p))
            == Some(LinesOf(TextOfPage(text, texts, p)))
  {
    hide Document, TableHead, Objects, TableStart, Power, PageStream, StreamNode, PageNode, Font, Contents, ReadPageStream, ReadLines, LinesOf;
    var streams := Streams(text, pages, texts, lowContrast);
    ContentsAt(streams, p);
    StreamOfPage(text, pages, texts, lowContrast, p);
    PageStreamRead(Contents(streams), info, PageNumber(p), ContentNumber(p), FontNumber(pages), streams[p]);
    LinesRead(TextOfPage(text, texts, p), lowContrast);
  }

  /** A reader that knows nothing but the document gets the lines of every page, in order,
      from every document whose table starts below ten gigabytes. */
  lemma DocumentReadsBack(text: string, pages: nat, texts: seq<string>, lowContrast: bool)
    requires texts == [] || |texts| >= pages
    requires TableStart(Objects(Contents(Streams(text, pages, texts, lowContrast)))) < Power(10)
    ensures var objects := Objects(Contents(Streams(text, pages, texts, lowContrast)));
            ReadPdf(Document(objects, InfoNumber(pages))) == Some(LinesOfPages(text, texts, pages))
  {
    hide Document, TableHead, Objects, TableStart, Power, Streams, Contents, Catalog, PagesNode, ReadTable, ReadRoot, ReadObject,
         ReadCatalog, ReadKids, ReadAllPages;
    var streams := Streams(text, pages, texts, lowContrast);
    var contents, info := Contents(streams), InfoNumber(pages);
    FirstContents(streams);
    TableRead(Objects(contents), info);
    RootRead(Objects(contents), info);
    var first := ObjectRead(contents, info, 0);
    CatalogRead(first);
    var second := ObjectRead(contents, info, 1);
    KidsRead(pages, second);
    PagesRead(text, pages, texts, lowContrast, info, pages);
    assert PageNumbers(pages)[..pages] == PageNumbers(pages);
  }

  lemma FirstContents(streams: seq<string>)
    ensures |Contents(streams)| >= 2 && Contents(streams)[0] == Catalog() && Contents(streams)[1] == PagesNode(|streams|)
  {
    hide Catalog, PagesNode, Font, Info, PageObjects;
  }

  /** The lines of a page, joined, are its text exactly if that has no carriage return. */
  lemma LinesAreTheText(text: string)
    ensures LinesOf(text) != [] && (Join(LinesOf(text), '\n') == text <==> '\r' !in text)
  {
    PageTextSurvives(text, false);
    var lines := Split(text, '\n');
    assert PageStream(text, false)[|Prologue(false)|..] == Shown(lines) + "ET";
    hide Prologue, PageStream, Shown, ReadShown, Normalized;
    ShownRoundTrip(lines);
  }

  /** The texts of the pages are read back from the whole document, each exactly if it has
      no carriage return. */
  lemma TextsReadBack(text: string, pages: nat, texts: seq<string>, lowContrast: bool)
    requires texts == [] || |texts| >= pages
    requires TableStart(Objects(Contents(Streams(text, pages, texts, lowContrast)))) < Power(10)
    ensures var objects := Objects(Contents(Streams(text, pages, texts, lowContrast)));
            var read := ReadPdf(Document(objects, InfoNumber(pages)));
            && read.Some? && |read.value| == pages
            && forall p :: 0 <= p < pages ==>
                 && read.value[p] != []
                 && (Join(read.value[p], '\n') == TextOfPage(text, texts, p) <==> '\r' !in TextOfPage(text, texts, p))
  {
    hide Document, Objects, TableStart, Power, Streams, Contents, ReadPdf, LinesOf, TextOfPage;
    DocumentReadsBack(text, pages, texts, lowContrast);
    forall p | 0 <= p < pages
      ensures LinesOf(TextOfPage(text, texts, p)) != []
      ensures Join(LinesOf(TextOfPage(text, texts, p)), '\n') == TextOfPage(text, texts, p)
              <==> '\r' !in TextOfPage(text, texts, p)
    {
      LinesAreTheText(TextOfPage(text, texts, p));
    }
  }

  /** In the document the kids array, read where it stands in the page tree, lists as many
      references as there are pages, and the i-th leads to the page whose contents are its
      own stream. */
  lemma KidsLeadToPages(streams: seq<string>, i: nat)
    requires i < |streams| && TableStart(Objects(Contents(streams))) < Power(10)
    ensures var objects := Objects(Contents(streams));
            var d, t := Document(objects, InfoNumber(|streams|)), Table(|TableHead(objects)|, |objects| + 1);
            var kids := ReadPageTree(d, t, 2);
            kids.Some? && |kids.value| == |streams| && ReadPageStream(d, t, kids.value[i]) == Some(streams[i])
  {
    hide Document, TableHead, Objects, TableStart, Power, Contents, ReadObject, ReadKids, ReadPageStream,
         PagesNode, PageNode, StreamNode, Font, Info, Catalog;
    var contents, info := Contents(streams), InfoNumber(|streams|);
    ContentsAt(streams, i);
    var tree := ObjectRead(contents, info, 1);
    KidsRead(|streams|, tree);
    PageStreamRead(contents, info, PageNumber(i), ContentNumber(i), FontNumber(|streams|), streams[i]);
  }
}
