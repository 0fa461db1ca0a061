/** The deterministic PDF writer: numbered objects, the cross-reference table and the
    trailer. A byte is modelled as the character with its code. */
module PdfWriter {
  import opened Numerals
  import opened Outcomes
  import opened PdfText
  import opened Splitting

  // ---------------------------------------------------------------- pieces of text

  function Concat(pieces: seq<string>): string {
    if pieces == [] then "" else Concat(pieces[..|pieces| - 1]) + pieces[|pieces| - 1]
  }

  /** Where piece k starts. */
  function Position(pieces: seq<string>, k: nat): nat
    requires k <= |pieces|
  {
    |Concat(pieces[..k])|
  }

  lemma ConcatNext(pieces: seq<string>, k: nat)
    requires k < |pieces|
    ensures Concat(pieces[..k + 1]) == Concat(pieces[..k]) + pieces[k]
    ensures Position(pieces, k + 1) == Position(pieces, k) + |pieces[k]|
  {
    assert pieces[..k + 1][..k] == pieces[..k];
  }

  lemma {:induction false} ConcatJoined(a: seq<string>, b: seq<string>)
    ensures Concat(a + b) == Concat(a) + Concat(b)
  {
    if b == [] {
      assert a + b == a;
    } else {
      var front, last := b[..|b| - 1], b[|b| - 1];
      ConcatJoined(a, front);
      assert (a + b)[..|a + b| - 1] == a + front && (a + b)[|a + b| - 1] == last;
      assert Concat(a + b) == Concat(a + front) + last && Concat(b) == Concat(front) + last;
    }
  }

  predicate StandsAt(whole: string, at: nat, piece: string) {
    at + |piece| <= |whole| && whole[at..at + |piece|] == piece
  }

  lemma StandsLast(before: string, piece: string)
    ensures StandsAt(before + piece, |before|, piece)
  {
  }

  lemma StandsOn(whole: string, at: nat, piece: string, more: string)
    requires StandsAt(whole, at, piece)
    ensures StandsAt(whole + more, at, piece)
  {
    assert (whole + more)[..|whole|] == whole;
    assert forall i :: at <= i < at + |piece| ==> (whole + more)[i] == whole[i];
  }

  lemma StandsAfter(before: string, whole: string, at: nat, piece: string)
    requires StandsAt(whole, at, piece)
    ensures StandsAt(before + whole, |before| + at, piece)
  {
    var all := before + whole;
    forall i | 0 <= i < |piece| ensures all[|before| + at + i] == piece[i] {
      assert whole[at..at + |piece|][i] == whole[at + i];
    }
  }

  lemma FourStand(a: string, b: string, c: string, d: string)
    ensures var whole := a + b + c + d;
            && |whole| == |a| + |b| + |c| + |d| && StandsAt(whole, 0, a) && StandsAt(whole, |a|, b)
            && StandsAt(whole, |a| + |b|, c) && StandsAt(whole, |a| + |b| + |c|, d)
  {
    assert "" + a == a;
    StandsLast("", a);
    StandsLast(a, b);
    StandsLast(a + b, c);
    StandsLast(a + b + c, d);
    hide StandsAt;
    StandsOn(a, 0, a, b);
    StandsOn(a + b, 0, a, c);
    StandsOn(a + b + c, 0, a, d);
    StandsOn(a + b, |a|, b, c);
    StandsOn(a + b + c, |a|, b, d);
    StandsOn(a + b + c, |a| + |b|, c, d);
  }

  lemma FiveStand(a: string, b: string, c: string, d: string, e: string)
    ensures var whole := a + b + c + d + e;
            && StandsAt(whole, 0, a) && StandsAt(whole, |a|, b) && StandsAt(whole, |a| + |b|, c)
            && StandsAt(whole, |a| + |b| + |c|, d) && StandsAt(whole, |a| + |b| + |c| + |d|, e)
  {
    hide StandsAt;
    var inner := a + b + c + d;
    FourStand(a, b, c, d);
    StandsOn(inner, 0, a, e);
    StandsOn(inner, |a|, b, e);
    StandsOn(inner, |a| + |b|, c, e);
    StandsOn(inner, |a| + |b| + |c|, d, e);
    StandsLast(inner, e);
  }

  /** A piece stands where the pieces before it end. */
  lemma PieceAt(pieces: seq<string>, k: nat)
    requires k < |pieces|
    ensures StandsAt(Concat(pieces), Position(pieces, k), pieces[k])
  {
    hide Concat, StandsAt;
    ConcatNext(pieces, k);
    assert pieces == pieces[..k + 1] + pieces[k + 1..];
    ConcatJoined(pieces[..k + 1], pieces[k + 1..]);
    StandsLast(Concat(pieces[..k]), pieces[k]);
    StandsOn(Concat(pieces[..k + 1]), Position(pieces, k), pieces[k], Concat(pieces[k + 1..]));
  }

  // ---------------------------------------------------------------- objects

  function Reference(n: nat): string {
    Decimal(n) + " 0 R"
  }

  function PageNumber(i: nat): nat {
    3 + 2 * i
  }

  function ContentNumber(i: nat): nat {
    4 + 2 * i
  }

  function FontNumber(pages: nat): nat {
    3 + 2 * pages
  }

  function InfoNumber(pages: nat): nat {
    4 + 2 * pages
  }

  function KidReferences(pages: nat): (r: seq<string>)
    ensures |r| == pages && forall i :: 0 <= i < pages ==> r[i] == Reference(PageNumber(i))
  {
    seq(pages, i requires 0 <= i < pages => Reference(PageNumber(i)))
  }

  function Kids(pages: nat): string {
    if pages == 0 then "" else Join(KidReferences(pages), ' ')
  }

  function Catalog(): string {
    "<< /Type /Catalog /Pages 2 0 R >>"
  }

  function Font(): string {
    "<< /Type /Font /Subtype /Type1 " + "/BaseFont /Helvetica >>"
  }

  function FixedDate(): string {
    "(D:20260101000000Z) "
  }

  function Producer(): string {
    "<< /Producer (Scanalyze Test Generator) "
  }

  function Info(): string {
    Producer() + "/CreationDate " + FixedDate() + "/ModDate " + FixedDate() + ">>"
  }

  function PagesNode(pages: nat): string {
    "<< /Type /Pages /Kids [ " + Kids(pages) + " ] /Count " + Decimal(pages) + " >>"
  }

  function PageKeys(): string {
    "<< /Type /Page /Parent 2 0 R " + "/MediaBox [0 0 612 792] " + "/Contents "
  }

  function FontKeys(): string {
    " 0 R " + "/Resources << /Font << /F1 "
  }

  function PageEnd(): string {
    " 0 R >> >> >>"
  }

  function PageNode(content: nat, font: nat): string {
    PageKeys() + Decimal(content) + FontKeys() + Decimal(font) + PageEnd()
  }

  function LengthKey(): string {
    "<< /Length "
  }

  function StreamKey(): string {
    " >>\nstream\n"
  }

  function EndKey(): string {
    "\nendstream"
  }

  function StreamNode(stream: string): string {
    LengthKey() + Decimal(|stream|) + StreamKey() + stream + EndKey()
  }

  /** The contents of the objects of the first k pages. */
  function PageObjects(streams: seq<string>, k: nat): seq<string>
    requires k <= |streams|
  {
    if k == 0 then []
    else PageObjects(streams, k - 1) + [PageNode(ContentNumber(k - 1), FontNumber(|streams|)), StreamNode(streams[k - 1])]
  }

  /** The contents of the objects up to those of the first k pages. */
  function FrontContents(streams: seq<string>, k: nat): seq<string>
    requires k <= |streams|
  {
    [Catalog(), PagesNode(|streams|)] + PageObjects(streams, k)
  }

  /** The contents of all objects, in the order of their numbers. */
  function Contents(streams: seq<string>): seq<string> {
    FrontContents(streams, |streams|) + [Font()] + [Info()]
  }

  function Object(number: nat, content: string): string {
    Decimal(number) + " 0 obj\n" + content + "\nendobj\n"
  }

  function Objects(contents: seq<string>): (objects: seq<string>)
    ensures |objects| == |contents|
  {
    if contents == [] then [] else Objects(contents[..|contents| - 1]) + [Object(|contents|, contents[|contents| - 1])]
  }

  /** Objects are numbered from one, in order. */
  lemma {:induction false} ObjectAt(contents: seq<string>, k: nat)
    requires k < |contents|
    ensures Objects(contents)[k] == Object(k + 1, contents[k])
  {
    if k < |contents| - 1 {
      ObjectAt(contents[..|contents| - 1], k);
    }
  }

  lemma {:induction false} PageObjectAt(streams: seq<string>, k: nat, i: nat)
    requires i < k <= |streams|
    ensures |PageObjects(streams, k)| == 2 * k
    ensures PageObjects(streams, k)[2 * i] == PageNode(ContentNumber(i), FontNumber(|streams|))
    ensures PageObjects(streams, k)[2 * i + 1] == StreamNode(streams[i])
  {
    hide PageNode, StreamNode;
    if k > 1 {
      PageObjectAt(streams, k - 1, if i < k - 1 then i else 0);
    }
  }

  /** Each object is where its number says. */
  lemma ContentsAt(streams: seq<string>, i: nat)
    requires i < |streams|
    ensures var contents, n := Contents(streams), |streams|;
            && |contents| == InfoNumber(n)
            && contents[1 - 1] == Catalog() && contents[2 - 1] == PagesNode(n)
            && contents[PageNumber(i) - 1] == PageNode(ContentNumber(i), FontNumber(n))
            && contents[ContentNumber(i) - 1] == StreamNode(streams[i])
            && contents[FontNumber(n) - 1] == Font() && contents[InfoNumber(n) - 1] == Info()
  {
    hide PagesNode, PageNode, StreamNode, Catalog, Font, Info, PageObjects;
    PageObjectAt(streams, |streams|, i);
  }

  /** The two references of a page, read where they stand, lead to its stream and to the font. */
  lemma PageLeadsToItsParts(streams: seq<string>, i: nat)
    requires i < |streams|
    ensures var contents, page := Contents(streams), PageNode(ContentNumber(i), FontNumber(|streams|));
            var c, f := Decimal(ContentNumber(i)), Decimal(FontNumber(|streams|));
            && StandsAt(page, 0, PageKeys()) && StandsAt(page, |PageKeys()|, c)
            && StandsAt(page, |PageKeys()| + |c|, FontKeys()) && StandsAt(page, |PageKeys()| + |c| + |FontKeys()|, f)
            && 1 <= Parsed(c) <= |contents| && contents[Parsed(c) - 1] == StreamNode(streams[i])
            && 1 <= Parsed(f) <= |contents| && contents[Parsed(f) - 1] == Font()
  {
    hide PageKeys, FontKeys, PageEnd, Font, StreamNode, Contents, StandsAt, Decimal, Parsed;
    DecimalShape(ContentNumber(i), 1);
    DecimalShape(FontNumber(|streams|), 1);
    ContentsAt(streams, i);
    FiveStand(PageKeys(), Decimal(ContentNumber(i)), FontKeys(), Decimal(FontNumber(|streams|)), PageEnd());
  }

  /** The length a stream object declares is the size of what stands between its markers. */
  lemma LengthIsExact(stream: string)
    ensures var node, digits := StreamNode(stream), Decimal(|stream|);
            var start := |LengthKey()| + |digits| + |StreamKey()|;
            && StandsAt(node, 0, LengthKey()) && StandsAt(node, |LengthKey()|, digits) && Parsed(digits) == |stream|
            && StandsAt(node, |LengthKey()| + |digits|, StreamKey())
            && StandsAt(node, start, stream) && StandsAt(node, start + Parsed(digits), EndKey())
  {
    DecimalShape(|stream|, 1);
    hide Decimal, Parsed, LengthKey, StreamKey, EndKey, StandsAt;
    FiveStand(LengthKey(), Decimal(|stream|), StreamKey(), stream, EndKey());
  }

  // ---------------------------------------------------------------- the document

  /** The version line and the binary marker. */
  function Header(): string {
    "%PDF-1.4\n%\U{00E2}\U{00E3}\U{00CF}\U{00D3}\U{0000}\n"
  }

  function Zeros(n: nat): (z: string)
    ensures |z| == n && forall i :: 0 <= i < n ==> z[i] == '0'
  {
    seq(n, i => '0')
  }

  /** Decimal text of at least ten digits. */
  function TenDigits(n: nat): string {
    Zeros(if |Decimal(n)| < 10 then 10 - |Decimal(n)| else 0) + Decimal(n)
  }

  function Row(offset: nat): string {
    TenDigits(offset) + " 00000 n \n"
  }

  function FreeRow(): (s: string)
    ensures |s| == 20
  {
    "0000000000 65535 f \n"
  }

  function Offset(objects: seq<string>, k: nat): nat
    requires k <= |objects|
  {
    |Header()| + Position(objects, k)
  }

  function Rows(objects: seq<string>): (rows: seq<string>)
    ensures |rows| == |objects| && forall k :: 0 <= k < |objects| ==> rows[k] == Row(Offset(objects, k))
  {
    seq(|objects|, k requires 0 <= k < |objects| => Row(Offset(objects, k)))
  }

  function TableStart(objects: seq<string>): nat {
    Offset(objects, |objects|)
  }

  function TableKey(): string {
    "xref\n"
  }

  function TableSize(objects: seq<string>): string {
    "0 " + Decimal(|objects| + 1) + "\n"
  }

  function SizeKeys(): string {
    "trailer\n<< /Size "
  }

  function InfoKeys(): string {
    " /Root 1 0 R /Info "
  }

  function TrailerEnd(): string {
    " 0 R >>\n"
  }

  function TrailerKeys(objects: seq<string>, info: nat): string {
    SizeKeys() + Decimal(|objects| + 1) + InfoKeys() + Decimal(info) + TrailerEnd()
  }

  function StartKey(): string {
    "startxref\n"
  }

  function EofKey(): string {
    "\n%%EOF\n"
  }

  /** The document up to the end of its objects, and up to the first row of its table. */
  function Body(objects: seq<string>): string {
    Header() + Concat(objects)
  }

  function TableHead(objects: seq<string>): string {
    Body(objects) + TableKey() + TableSize(objects)
  }

  function WithTable(objects: seq<string>): string {
    TableHead(objects) + FreeRow() + Concat(Rows(objects))
  }

  function Document(objects: seq<string>, info: nat): string {
    WithTable(objects) + TrailerKeys(objects, info) + StartKey() + Decimal(TableStart(objects)) + EofKey()
  }

  lemma {:induction false} LeadingZeros(z: string, s: string)
    requires forall i :: 0 <= i < |z| ==> z[i] == '0'
    requires s != [] && forall i :: 0 <= i < |s| ==> '0' <= s[i] <= '9'
    ensures (forall i :: 0 <= i < |z + s| ==> '0' <= (z + s)[i] <= '9') && Parsed(z + s) == Parsed(s)
  {
    var whole := z + s;
    assert whole[..|whole| - 1] == z + s[..|s| - 1];
    if |s| > 1 {
      LeadingZeros(z, s[..|s| - 1]);
    } else if z != [] {
      assert s[..0] == [] && z + [] == z && z == z[..|z| - 1] + ['0'];
      LeadingZeros(z[..|z| - 1], ['0']);
      assert Parsed(['0']) == 0 by { assert ['0'][..0] == []; }
    } else {
      assert whole == s;
    }
  }

  /** A row has its twenty bytes exactly if the offset has at most ten digits, and then it
      can be read back. */
  lemma RowRoundTrip(offset: nat)
    ensures |Row(offset)| == 20 <==> offset < Power(10)
    ensures |Row(offset)| == 20 ==>
      && (forall i :: 0 <= i < 10 ==> '0' <= Row(offset)[i] <= '9')
      && Parsed(Row(offset)[..10]) == offset && Row(offset)[10..] == " 00000 n \n"
  {
    DecimalShape(offset, 10);
    var d := Decimal(offset);
    var z := Zeros(if |d| < 10 then 10 - |d| else 0);
    LeadingZeros(z, d);
    if |Row(offset)| == 20 {
      assert Row(offset)[..10] == z + d;
    }
  }

  lemma {:induction false} UniformRows(rows: seq<string>, k: nat)
    requires k <= |rows| && forall i :: 0 <= i < |rows| ==> |rows[i]| == 20
    ensures Position(rows, k) == 20 * k
  {
    if k > 0 {
      UniformRows(rows, k - 1);
      ConcatNext(rows, k - 1);
    }
  }

  lemma OffsetsGrow(objects: seq<string>, k: nat)
    requires k <= |objects|
    ensures Offset(objects, k) <= TableStart(objects) == |Body(objects)|
  {
    assert objects[..|objects|] == objects;
    if k < |objects| {
      PieceAt(objects, k);
    }
  }

  /** What stands in the table or before it, stands in the document. */
  lemma StandsInDocument(objects: seq<string>, info: nat, at: nat, piece: string)
    requires StandsAt(WithTable(objects), at, piece)
    ensures StandsAt(Document(objects, info), at, piece)
  {
    hide StandsAt, WithTable, TrailerKeys, StartKey, EofKey, TableStart;
    var one := WithTable(objects) + TrailerKeys(objects, info);
    StandsOn(WithTable(objects), at, piece, TrailerKeys(objects, info));
    StandsOn(one, at, piece, StartKey());
    StandsOn(one + StartKey(), at, piece, Decimal(TableStart(objects)));
    StandsOn(one + StartKey() + Decimal(TableStart(objects)), at, piece, EofKey());
  }

  /** What stands in the body or in the line after it, stands in the document. */
  lemma StandsBeforeTable(objects: seq<string>, info: nat, at: nat, piece: string)
    requires StandsAt(Body(objects) + TableKey(), at, piece)
    ensures StandsAt(Document(objects, info), at, piece)
  {
    hide StandsAt, Body, TableKey, TableSize, FreeRow, Document;
    StandsOn(Body(objects) + TableKey(), at, piece, TableSize(objects));
    StandsOn(TableHead(objects), at, piece, FreeRow());
    StandsOn(TableHead(objects) + FreeRow(), at, piece, Concat(Rows(objects)));
    StandsInDocument(objects, info, at, piece);
  }

  /** Object k stands at its offset. */
  lemma ObjectStandsAt(objects: seq<string>, info: nat, k: nat)
    requires k < |objects|
    ensures StandsAt(Document(objects, info), Offset(objects, k), objects[k])
  {
    hide StandsAt, Document, Header, TableKey, Concat;
    PieceAt(objects, k);
    StandsAfter(Header(), Concat(objects), Position(objects, k), objects[k]);
    StandsOn(Body(objects), Offset(objects, k), objects[k], TableKey());
    StandsBeforeTable(objects, info, Offset(objects, k), objects[k]);
  }

  lemma RowsAreUniform(objects: seq<string>, k: nat)
    requires k < |objects| && TableStart(objects) < Power(10)
    ensures |Row(Offset(objects, k))| == 20 && Position(Rows(objects), k) == 20 * k
  {
    var rows := Rows(objects);
    forall i | 0 <= i < |rows| ensures |rows[i]| == 20 {
      OffsetsGrow(objects, i);
      RowRoundTrip(Offset(objects, i));
    }
    UniformRows(rows, k);
  }

  /** The rows of the table follow each other every twenty bytes. */
  lemma RowStandsAt(objects: seq<string>, info: nat, k: nat)
    requires k < |objects| && TableStart(objects) < Power(10)
    ensures StandsAt(Document(objects, info), |TableHead(objects)|, FreeRow())
    ensures StandsAt(Document(objects, info), |TableHead(objects)| + 20 * (k + 1), Row(Offset(objects, k)))
    ensures |Row(Offset(objects, k))| == 20
  {
    hide StandsAt, Document, TableHead, FreeRow, Concat, Row, Rows, Offset, Position, TableStart, Power;
    var rows, head := Rows(objects), TableHead(objects);
    RowsAreUniform(objects, k);
    PieceAt(rows, k);
    StandsAfter(head + FreeRow(), Concat(rows), 20 * k, rows[k]);
    StandsInDocument(objects, info, |head| + 20 * (k + 1), rows[k]);
    StandsLast(head, FreeRow());
    StandsOn(head + FreeRow(), |head|, FreeRow(), Concat(rows));
    StandsInDocument(objects, info, |head|, FreeRow());
  }

  /** Ten digits and the mark of an object in use, in twenty bytes. */
  predicate IsRow(row: string) {
    |row| == 20 && (forall i :: 0 <= i < 10 ==> '0' <= row[i] <= '9') && row[10..] == " 00000 n \n"
  }

  /** A reader that goes to the twenty bytes of row k + 1 of the table and from there to the
      offset in that row finds object k + 1, in every document whose objects end below ten
      gigabytes. */
  lemma TableFindsObject(objects: seq<string>, info: nat, k: nat) returns (row: string)
    requires k < |objects| && TableStart(objects) < Power(10)
    ensures IsRow(row) && row == row[..10] + " 00000 n \n" && StandsAt(Document(objects, info), |TableHead(objects)| + 20 * (k + 1), row)
    ensures StandsAt(Document(objects, info), Parsed(row[..10]), objects[k])
  {
    hide Document, Row, TableHead, StandsAt;
    RowStandsAt(objects, info, k);
    RowRoundTrip(Offset(objects, k));
    ObjectStandsAt(objects, info, k);
    row := Row(Offset(objects, k));
  }

  /** The trailer declares one object more than there are, for the free entry, and its
      information reference leads to the information dictionary. */
  lemma TrailerLeadsToInfo(streams: seq<string>)
    ensures var contents := Contents(streams);
            var objects, info := Objects(contents), InfoNumber(|streams|);
            var d, at := Document(objects, info), |WithTable(objects)|;
            var size, digits := Decimal(|objects| + 1), Decimal(info);
            && StandsAt(d, at, SizeKeys()) && StandsAt(d, at + |SizeKeys()|, size) && Parsed(size) == |contents| + 1
            && StandsAt(d, at + |SizeKeys()| + |size| + |InfoKeys()|, digits)
            && Parsed(digits) == |contents| && contents[Parsed(digits) - 1] == Info()
  {
    hide StandsAt, WithTable, SizeKeys, InfoKeys, TrailerEnd, Info, Font, Catalog, FrontContents, Decimal, Parsed, Objects, Document;
    var contents := Contents(streams);
    var objects, info := Objects(contents), InfoNumber(|streams|);
    FrontSize(streams, |streams|);
    DecimalShape(|objects| + 1, 1);
    DecimalShape(info, 1);
    FiveStand(SizeKeys(), Decimal(|objects| + 1), InfoKeys(), Decimal(info), TrailerEnd());
    StandsInTrailer(objects, info, 0, SizeKeys());
    StandsInTrailer(objects, info, |SizeKeys()|, Decimal(|objects| + 1));
    StandsInTrailer(objects, info, |SizeKeys()| + |Decimal(|objects| + 1)| + |InfoKeys()|, Decimal(info));
  }

  lemma StandsInTrailer(objects: seq<string>, info: nat, at: nat, piece: string)
    requires StandsAt(TrailerKeys(objects, info), at, piece)
    ensures StandsAt(Document(objects, info), |WithTable(objects)| + at, piece)
  {
    hide StandsAt, WithTable, TrailerKeys, StartKey, EofKey, TableStart;
    var one, at' := WithTable(objects) + TrailerKeys(objects, info), |WithTable(objects)| + at;
    StandsAfter(WithTable(objects), TrailerKeys(objects, info), at, piece);
    StandsOn(one, at', piece, StartKey());
    StandsOn(one + StartKey(), at', piece, Decimal(TableStart(objects)));
    StandsOn(one + StartKey() + Decimal(TableStart(objects)), at', piece, EofKey());
  }

  /** The number after startxref is where the table begins, and the document ends there. */
  lemma StartPointsAtTable(objects: seq<string>, info: nat)
    ensures var d, digits := Document(objects, info), Decimal(TableStart(objects));
            && StandsAt(d, TableStart(objects), TableKey()) && Parsed(digits) == TableStart(objects)
            && |d| >= |StartKey()| + |digits| + |EofKey()|
            && StandsAt(d, |d| - |EofKey()|, EofKey()) && StandsAt(d, |d| - |EofKey()| - |digits|, digits)
            && StandsAt(d, |d| - |EofKey()| - |digits| - |StartKey()|, StartKey())
  {
    hide StandsAt, Body, TableStart, TableKey, TrailerKeys, StartKey, EofKey, Decimal, Parsed, WithTable;
    OffsetsGrow(objects, 0);
    var digits := Decimal(TableStart(objects));
    DecimalRoundTrip(TableStart(objects));
    StandsLast(Body(objects), TableKey());
    StandsBeforeTable(objects, info, |Body(objects)|, TableKey());
    FourStand(WithTable(objects) + TrailerKeys(objects, info), StartKey(), digits, EofKey());
  }

  // ---------------------------------------------------------------- the writer

  /** The streams of all pages: from the texts of the pages if there are any, otherwise the
      same text on every page. */
  function Streams(text: string, pages: nat, texts: seq<string>, lowContrast: bool): (r: seq<string>)
    requires texts == [] || |texts| >= pages
    ensures |r| == pages
  {
    seq(pages, p requires 0 <= p < pages => PageStream(if texts == [] then text else texts[p], lowContrast))
  }

  lemma StreamOfPage(text: string, pages: nat, texts: seq<string>, lowContrast: bool, p: nat)
    requires (texts == [] || |texts| >= pages) && p < pages
    ensures Streams(text, pages, texts, lowContrast)[p] == PageStream(if texts == [] then text else texts[p], lowContrast)
  {
  }

  predicate Ascii(s: string) {
    forall i :: 0 <= i < |s| ==> s[i] as int < 128
  }

  ghost predicate AllAscii(parts: seq<string>) {
    forall i :: 0 <= i < |parts| ==> Ascii(parts[i])
  }

  lemma NextPageObjects(streams: seq<string>, p: nat, objects: seq<string>, page: string, content: string)
    requires p < |streams| && objects == Objects(FrontContents(streams, p))
    requires page == Object(3 + 2 * p, PageNode(3 + 2 * p + 1, FontNumber(|streams|)))
    requires content == Object(3 + 2 * p + 1, StreamNode(streams[p]))
    ensures objects + [page, content] == Objects(FrontContents(streams, p + 1))
  {
    hide Catalog, PagesNode, PageNode, StreamNode, Object;
    var first, second := PageNode(ContentNumber(p), FontNumber(|streams|)), StreamNode(streams[p]);
    var before := FrontContents(streams, p);
    FrontSize(streams, p);
    assert FrontContents(streams, p + 1) == before + [first] + [second];
    hide FrontContents, Objects;
    ObjectsJoined(before, PageNumber(p), first);
    ObjectsJoined(before + [first], ContentNumber(p), second);
  }

  lemma ObjectsJoined(a: seq<string>, number: nat, content: string)
    requires number == |a| + 1
    ensures Objects(a + [content]) == Objects(a) + [Object(number, content)]
  {
    assert (a + [content])[..|a|] == a;
  }

  lemma FrontObjects(streams: seq<string>)
    ensures [Object(1, Catalog()), Object(2, PagesNode(|streams|))] == Objects(FrontContents(streams, 0))
  {
    hide Catalog, PagesNode, Object;
    TwoObjects(Catalog(), PagesNode(|streams|));
    assert FrontContents(streams, 0) == [Catalog(), PagesNode(|streams|)];
  }

  lemma TwoObjects(a: string, b: string)
    ensures Objects([a, b]) == [Object(1, a), Object(2, b)]
  {
    hide Object;
    assert [a, b][..1] == [a] && [a][..0] == [];
    assert Objects([a]) == [Object(1, a)];
  }

  lemma FrontSize(streams: seq<string>, k: nat)
    requires k <= |streams|
    ensures |FrontContents(streams, k)| == 2 + 2 * k
  {
    hide Catalog, PagesNode;
    if k > 0 {
      PageObjectAt(streams, k, 0);
    }
  }

  lemma LastObjects(streams: seq<string>, built: seq<string>)
    requires built == Objects(FrontContents(streams, |streams|))
    ensures var n := 3 + 2 * |streams|;
            built + [Object(n, Font())] + [Object(n + 1, Info())] == Objects(Contents(streams)) && n + 1 == InfoNumber(|streams|)
  {
    hide Font, Info, Object, FrontContents, Objects;
    var before := FrontContents(streams, |streams|);
    FrontSize(streams, |streams|);
    ObjectsJoined(before, FontNumber(|streams|), Font());
    ObjectsJoined(before + [Font()], InfoNumber(|streams|), Info());
  }

  /** The two objects of a page. */
  method PageObjectsOf(number: nat, pages: nat, text: string, lowContrast: bool) returns (page: string, content: string)
    ensures page == Object(number, PageNode(number + 1, FontNumber(pages)))
    ensures content == Object(number + 1, StreamNode(PageStream(text, lowContrast)))
  {
    page := Object(number, PageNode(number + 1, FontNumber(pages)));
    var stream := WritePageStream(text, lowContrast);
    content := Object(number + 1, StreamNode(stream));
  }

  /** The numbered objects; None when a page has no text of its own although the pages have
      texts. */
  method BuildObjects(text: string, pages: nat, texts: seq<string>, lowContrast: bool)
    returns (objects: Option<seq<string>>, info: nat)
    ensures objects == None <==> texts != [] && |texts| < pages
    ensures objects.Some? ==> objects.value == Objects(Contents(Streams(text, pages, texts, lowContrast))) && info == InfoNumber(pages)
  {
    hide *;
    if texts != [] && |texts| < pages { return None, 0; }
    ghost var streams := Streams(text, pages, texts, lowContrast);
    var built := [Object(1, Catalog()), Object(2, PagesNode(pages))];
    FrontObjects(streams);
    var current := 3;
    for p := 0 to pages
      invariant current == 3 + 2 * p
      invariant built == Objects(FrontContents(streams, p))
    {
      StreamOfPage(text, pages, texts, lowContrast, p);
      var page, content := PageObjectsOf(current, pages, if texts == [] then text else texts[p], lowContrast);
      NextPageObjects(streams, p, built, page, content);
      built := built + [page, content];
      current := current + 2;
    }
    LastObjects(streams, built);
    built := built + [Object(current, Font())];
    info := current + 1;
    built := built + [Object(info, Info())];
    objects := Some(built);
  }

  /** Header, objects, table and trailer; None when an object cannot be encoded in ASCII. */
  method Assemble(objects: seq<string>, info: nat) returns (pdf: Option<string>)
    ensures pdf == if AllAscii(objects) then Some(Document(objects, info)) else None
  {
    hide Header, TableKey, TableSize, FreeRow, TrailerKeys, StartKey, EofKey, Row, Ascii, Concat;
    var content, offsets, offset := Header(), [], |Header()|;
    assert Concat(objects[..0]) == "" && Concat(Rows(objects)[..0]) == "" by { NoPieces(objects[..0], Rows(objects)[..0]); }
    for k := 0 to |objects|
      invariant content == Header() + Concat(objects[..k]) && offset == |content| && |offsets| == k
      invariant forall j :: 0 <= j < k ==> Ascii(objects[j]) && offsets[j] == Offset(objects, j)
    {
      offsets := offsets + [offset];
      if !Ascii(objects[k]) { return None; }
      ConcatNext(objects, k);
      content := content + objects[k];
      offset := offset + |objects[k]|;
    }
    assert objects[..|objects|] == objects;
    var start := offset;
    content := content + TableKey() + TableSize(objects);
    content := content + FreeRow();
    assert content == TableHead(objects) + FreeRow();
    for k := 0 to |objects|
      invariant content == TableHead(objects) + FreeRow() + Concat(Rows(objects)[..k])
    {
      ConcatNext(Rows(objects), k);
      content := content + Row(offsets[k]);
    }
    assert Rows(objects)[..|objects|] == Rows(objects);
    content := content + TrailerKeys(objects, info);
    content := content + StartKey() + Decimal(start) + EofKey();
    pdf := Some(content);
  }

  lemma NoPieces(a: seq<string>, b: seq<string>)
    requires a == [] && b == []
    ensures Concat(a) == "" && Concat(b) == ""
  {
  }

  // ---------------------------------------------------------------- which texts can be written

  lemma AsciiJoined(a: string, b: string)
    ensures Ascii(a + b) <==> Ascii(a) && Ascii(b)
  {
    if Ascii(a + b) {
      forall i | 0 <= i < |a| ensures a[i] as int < 128 { assert (a + b)[i] == a[i]; }
      forall i | 0 <= i < |b| ensures b[i] as int < 128 { assert (a + b)[|a| + i] == b[i]; }
    }
  }

  lemma AsciiDecimal(n: nat)
    ensures Ascii(Decimal(n)) && Ascii(Reference(n))
  {
    assert Ascii(" 0 R");
    AsciiJoined(Decimal(n), " 0 R");
  }

  lemma {:induction false} AsciiEscape(s: string)
    ensures Ascii(Escape(s)) <==> Ascii(s)
  {
    hide Escape, Ascii;
    if s == [] {
      EscapeByChar('x', []);
    } else {
      assert s == [s[0]] + s[1..];
      EscapeByChar(s[0], s[1..]);
      AsciiEscape(s[1..]);
      AsciiJoined([s[0]], s[1..]);
      AsciiJoined(EscapeChar(s[0]), Escape(s[1..]));
      AsciiChar(s[0]);
    }
  }

  lemma AsciiChar(c: char)
    ensures Ascii(EscapeChar(c)) <==> Ascii([c])
  {
    assert [c][0] == c;
    assert EscapeChar(c)[|EscapeChar(c)| - 1] == c;
  }

  lemma AsciiShow(line: string)
    ensures Ascii(Show(line)) <==> Ascii(line)
  {
    hide Escape;
    AsciiEscape(line);
    AsciiJoined("(", Escape(line));
    AsciiJoined("(" + Escape(line), ") Tj\n");
  }

  lemma AllOfFirst(parts: seq<string>)
    requires parts != []
    ensures AllAscii(parts) <==> Ascii(parts[0]) && AllAscii(parts[1..])
  {
    assert parts == [parts[0]] + parts[1..];
  }

  lemma AllOfLast(parts: seq<string>)
    requires parts != []
    ensures AllAscii(parts) <==> AllAscii(parts[..|parts| - 1]) && Ascii(parts[|parts| - 1])
  {
    assert parts == parts[..|parts| - 1] + [parts[|parts| - 1]];
  }

  lemma {:induction false} AsciiShown(lines: seq<string>)
    requires lines != []
    ensures Ascii(Shown(lines)) <==> AllAscii(lines)
  {
    hide Show;
    AsciiShow(lines[0]);
    if |lines| > 1 {
      assert Ascii(NEXT_LINE);
      AllOfFirst(lines);
      AsciiShown(lines[1..]);
      AsciiJoined(Show(lines[0]), NEXT_LINE);
      AsciiJoined(Show(lines[0]) + NEXT_LINE, Shown(lines[1..]));
    }
  }

  lemma {:induction false} AsciiJoin(parts: seq<string>, at: char)
    requires parts != [] && at as int < 128
    ensures Ascii(Join(parts, at)) <==> AllAscii(parts)
  {
    if |parts| > 1 {
      AllOfFirst(parts);
      AsciiJoin(parts[1..], at);
      AsciiJoined(parts[0], [at]);
      AsciiJoined(parts[0] + [at], Join(parts[1..], at));
    }
  }

  lemma AsciiStream(text: string, lowContrast: bool)
    ensures Ascii(PageStream(text, lowContrast)) <==> Ascii(text)
  {
    hide Shown, Prologue;
    var lines := Split(text, '\n');
    AsciiPrologue(lowContrast);
    SplitThenJoin(text, '\n');
    AsciiJoin(lines, '\n');
    AsciiShown(lines);
    AsciiJoined(Prologue(lowContrast), Shown(lines));
    AsciiJoined(Prologue(lowContrast) + Shown(lines), "ET");
  }

  lemma AsciiPrologue(lowContrast: bool)
    ensures Ascii(Prologue(lowContrast)) && Ascii("ET")
  {
    var a, b, c := "BT\n/F1 12 Tf\n", if lowContrast then "0.85 0.85 0.85 rg\n" else "0 0 0 rg\n", "100 700 Td\n";
    AsciiJoined(a, b);
    AsciiJoined(a + b, c);
  }

  lemma AsciiPagesNode(pages: nat)
    ensures Ascii(PagesNode(pages))
  {
    hide Decimal, Reference;
    var head, tail := "<< /Type /Pages /Kids [ ", " ] /Count ";
    if pages > 0 {
      forall i | 0 <= i < pages ensures Ascii(KidReferences(pages)[i]) { AsciiDecimal(PageNumber(i)); }
      AsciiJoin(KidReferences(pages), ' ');
    }
    AsciiDecimal(pages);
    AsciiJoined(head, Kids(pages));
    AsciiJoined(head + Kids(pages), tail);
    AsciiJoined(head + Kids(pages) + tail, Decimal(pages));
    AsciiJoined(head + Kids(pages) + tail + Decimal(pages), " >>");
  }

  lemma AsciiPageKeys()
    ensures Ascii(PageKeys())
  {
    AsciiParent();
    AsciiMediaBox();
    hide Ascii;
    var a, b := "<< /Type /Page /Parent 2 0 R ", "/MediaBox [0 0 612 792] ";
    AsciiJoined(a, b);
    AsciiJoined(a + b, "/Contents ");
  }

  lemma AsciiParent()
    ensures Ascii("<< /Type /Page /Parent 2 0 R ")
  {
  }

  lemma AsciiMediaBox()
    ensures Ascii("/MediaBox [0 0 612 792] ") && Ascii("/Contents ")
  {
  }

  lemma AsciiFontKeys()
    ensures Ascii(FontKeys()) && Ascii(PageEnd())
  {
    AsciiJoined(" 0 R ", "/Resources << /Font << /F1 ");
  }

  lemma AsciiStreamKeys()
    ensures Ascii(LengthKey()) && Ascii(StreamKey()) && Ascii(EndKey())
  {
  }

  lemma AsciiCatalog()
    ensures Ascii(Catalog())
  {
  }

  lemma AsciiFont()
    ensures Ascii(Font())
  {
    AsciiJoined("<< /Type /Font /Subtype /Type1 ", "/BaseFont /Helvetica >>");
  }

  lemma AsciiInfo()
    ensures Ascii(Info())
  {
    hide FixedDate, Producer;
    var a := Producer();
    AsciiDate();
    AsciiJoined(a, "/CreationDate ");
    AsciiJoined(a + "/CreationDate ", FixedDate());
    AsciiJoined(a + "/CreationDate " + FixedDate(), "/ModDate ");
    AsciiJoined(a + "/CreationDate " + FixedDate() + "/ModDate ", FixedDate());
    AsciiJoined(a + "/CreationDate " + FixedDate() + "/ModDate " + FixedDate(), ">>");
  }

  lemma AsciiDate()
    ensures Ascii(FixedDate()) && Ascii(Producer())
  {
  }

  lemma AsciiPageNode(content: nat, font: nat)
    ensures Ascii(PageNode(content, font))
  {
    hide Ascii, PageKeys, FontKeys, PageEnd, Decimal;
    AsciiPageKeys();
    AsciiFontKeys();
    AsciiDecimal(content);
    AsciiDecimal(font);
    AsciiJoined(PageKeys(), Decimal(content));
    AsciiJoined(PageKeys() + Decimal(content), FontKeys());
    AsciiJoined(PageKeys() + Decimal(content) + FontKeys(), Decimal(font));
    AsciiJoined(PageKeys() + Decimal(content) + FontKeys() + Decimal(font), PageEnd());
  }

  lemma AsciiStreamNode(stream: string)
    ensures Ascii(StreamNode(stream)) <==> Ascii(stream)
  {
    hide Ascii, LengthKey, StreamKey, EndKey, Decimal;
    AsciiStreamKeys();
    AsciiDecimal(|stream|);
    var head := LengthKey() + Decimal(|stream|) + StreamKey();
    AsciiJoined(LengthKey(), Decimal(|stream|));
    AsciiJoined(LengthKey() + Decimal(|stream|), StreamKey());
    AsciiJoined(head, stream);
    AsciiJoined(head + stream, EndKey());
  }

  lemma {:induction false} AsciiPageObjects(streams: seq<string>, k: nat)
    requires k <= |streams|
    ensures AllAscii(PageObjects(streams, k)) <==> AllAscii(streams[..k])
  {
    hide Ascii, PageNode, StreamNode;
    if k > 0 {
      var front, page, data := PageObjects(streams, k - 1), PageNode(ContentNumber(k - 1), FontNumber(|streams|)), StreamNode(streams[k - 1]);
      AsciiPageObjects(streams, k - 1);
      AsciiPageNode(ContentNumber(k - 1), FontNumber(|streams|));
      AsciiStreamNode(streams[k - 1]);
      assert PageObjects(streams, k) == (front + [page]) + [data];
      AllWith(front, page);
      AllWith(front + [page], data);
      assert streams[..k] == streams[..k - 1] + [streams[k - 1]];
      AllWith(streams[..k - 1], streams[k - 1]);
    }
  }

  lemma AllWith(parts: seq<string>, last: string)
    ensures AllAscii(parts + [last]) <==> AllAscii(parts) && Ascii(last)
  {
    assert (parts + [last])[..|parts|] == parts;
    AllOfLast(parts + [last]);
  }

  lemma AllOfBoth(a: seq<string>, b: seq<string>)
    ensures AllAscii(a + b) <==> AllAscii(a) && AllAscii(b)
  {
    hide Ascii;
    if AllAscii(a + b) {
      forall i | 0 <= i < |a| ensures Ascii(a[i]) { assert (a + b)[i] == a[i]; }
      forall i | 0 <= i < |b| ensures Ascii(b[i]) { assert (a + b)[|a| + i] == b[i]; }
    }
  }

  lemma AsciiContents(streams: seq<string>)
    ensures AllAscii(Contents(streams)) <==> AllAscii(streams)
  {
    hide Ascii, Catalog, PagesNode, Font, Info, PageObjects;
    AsciiCatalog();
    AsciiFont();
    AsciiInfo();
    AsciiPagesNode(|streams|);
    AsciiPageObjects(streams, |streams|);
    assert streams[..|streams|] == streams;
    AllOfBoth([Catalog(), PagesNode(|streams|)], PageObjects(streams, |streams|));
    AllWith(FrontContents(streams, |streams|), Font());
    AllWith(FrontContents(streams, |streams|) + [Font()], Info());
  }

  lemma AsciiObject(number: nat, content: string)
    ensures Ascii(Object(number, content)) <==> Ascii(content)
  {
    hide Decimal;
    AsciiDecimal(number);
    AsciiJoined(Decimal(number), " 0 obj\n");
    AsciiJoined(Decimal(number) + " 0 obj\n", content);
    AsciiJoined(Decimal(number) + " 0 obj\n" + content, "\nendobj\n");
  }

  lemma {:induction false} AsciiObjects(contents: seq<string>)
    ensures AllAscii(Objects(contents)) <==> AllAscii(contents)
  {
    hide Ascii, Object;
    if contents != [] {
      var front, last := contents[..|contents| - 1], contents[|contents| - 1];
      AsciiObjects(front);
      AsciiObject(|contents|, last);
      AllWith(Objects(front), Object(|contents|, last));
      AllOfLast(contents);
    }
  }

  /** The text of page p: its own if the pages have texts, otherwise the common one. */
  function TextOfPage(text: string, texts: seq<string>, p: nat): string
    requires texts == [] || p < |texts|
  {
    if texts == [] then text else texts[p]
  }

  /** Every page has a text, in ASCII. */
  ghost predicate Writable(text: string, pages: nat, texts: seq<string>) {
    && (texts == [] || |texts| >= pages)
    && forall p :: 0 <= p < pages ==> Ascii(TextOfPage(text, texts, p))
  }

  /** The objects can be encoded exactly if the texts of the pages can. */
  lemma EncodableIffTextsAre(text: string, pages: nat, texts: seq<string>, lowContrast: bool)
    requires texts == [] || |texts| >= pages
    ensures AllAscii(Objects(Contents(Streams(text, pages, texts, lowContrast)))) <==> Writable(text, pages, texts)
  {
    hide Ascii, Objects, Contents, PageStream;
    var streams := Streams(text, pages, texts, lowContrast);
    AsciiObjects(Contents(streams));
    AsciiContents(streams);
    forall p | 0 <= p < pages ensures Ascii(streams[p]) <==> Ascii(TextOfPage(text, texts, p)) {
      StreamOfPage(text, pages, texts, lowContrast, p);
      AsciiStream(TextOfPage(text, texts, p), lowContrast);
    }
  }

  /** The writer: the document of these pages, or None exactly for a page without a text
      or with a character outside ASCII in its text. */
  method WritePdf(text: string, pages: nat, texts: seq<string>, lowContrast: bool) returns (pdf: Option<string>)
    ensures pdf.Some? <==> Writable(text, pages, texts)
    ensures pdf.Some? ==> pdf.value == Document(Objects(Contents(Streams(text, pages, texts, lowContrast))), InfoNumber(pages))
  {
    hide Objects, Contents, Document, Ascii;
    var objects, info := BuildObjects(text, pages, texts, lowContrast);
    if objects == None { return None; }
    EncodableIffTextsAre(text, pages, texts, lowContrast);
    pdf := Assemble(objects.value, info);
  }
}
