/** The walk over the physical headers of an unpacked tar archive, against the record
    grammar it accepts. */
module TarPreflight {
  import opened Outcomes

  type Byte = b: int | 0 <= b < 256

  datatype Limits = Limits(archive: int, expanded: int, file: int, entries: int)

  datatype Code =
    | EntryLimit | MemberTypeInvalid | SizeInvalid | FileLimit | DirectoryPayload | ExpansionLimit | TrailingData

  const BLOCK := 512

  /** Limits may be tightened below the built-in caps, never raised. */
  predicate ValidLimits(l: Limits) {
    && 0 < l.archive <= 0x400_0000 && 0 < l.expanded <= 0x800_0000
    && 0 < l.file <= 0x100_0000 && 0 < l.entries <= 10000
  }

  // ---------------------------------------------------------------- the size field

  predicate IsFill(b: Byte) {
    b == 0 || b == 0x20
  }

  function StripLeft(s: seq<Byte>): seq<Byte> {
    if s != [] && IsFill(s[0]) then StripLeft(s[1..]) else s
  }

  function StripRight(s: seq<Byte>): seq<Byte> {
    if s != [] && IsFill(s[|s| - 1]) then StripRight(s[..|s| - 1]) else s
  }

  predicate IsOctal(s: seq<Byte>) {
    s != [] && forall i :: 0 <= i < |s| ==> 0x30 <= s[i] <= 0x37
  }

  function Octal(s: seq<Byte>): nat
    requires s != [] ==> IsOctal(s)
  {
    if s == [] then 0 else 8 * Octal(s[..|s| - 1]) + (s[|s| - 1] - 0x30)
  }

  function SizeField(h: seq<Byte>): seq<Byte>
    requires |h| == BLOCK
  {
    StripRight(StripLeft(h[124..136]))
  }

  predicate SizeReadable(h: seq<Byte>) {
    |h| == BLOCK && IsOctal(SizeField(h))
  }

  function Size(h: seq<Byte>): nat
    requires SizeReadable(h)
  {
    Octal(SizeField(h))
  }

  function Padded(size: nat): nat {
    (size + 511) / 512 * 512
  }

  // ---------------------------------------------------------------- the grammar

  datatype Record = Record(header: seq<Byte>, data: seq<Byte>)

  predicate TypeAccepted(b: Byte) {
    b == 0x30 || b == 0 || b == 0x35
  }

  /** A header of a regular file, or of a directory without contents. */
  predicate HeaderAccepted(h: seq<Byte>, l: Limits) {
    SizeReadable(h) && TypeAccepted(h[156]) && Size(h) <= l.file && (h[156] == 0x35 ==> Size(h) == 0)
  }

  predicate IsRecord(r: Record, l: Limits) {
    HeaderAccepted(r.header, l) && |r.data| == Padded(Size(r.header))
  }

  predicate AreRecords(rs: seq<Record>, l: Limits) {
    forall i :: 0 <= i < |rs| ==> IsRecord(rs[i], l)
  }

  function Serial(rs: seq<Record>): seq<Byte> {
    if rs == [] then [] else Serial(rs[..|rs| - 1]) + (rs[|rs| - 1].header + rs[|rs| - 1].data)
  }

  function Total(rs: seq<Record>, l: Limits): nat
    requires AreRecords(rs, l)
  {
    if rs == [] then 0 else Total(rs[..|rs| - 1], l) + Size(rs[|rs| - 1].header)
  }

  predicate Zero(s: seq<Byte>) {
    forall i :: 0 <= i < |s| ==> s[i] == 0
  }

  /** Records within the limits. */
  predicate Within(rs: seq<Record>, l: Limits) {
    AreRecords(rs, l) && |rs| <= l.entries && Total(rs, l) <= l.expanded
  }

  /** At least two zero blocks, and nothing else, close an archive. */
  predicate IsTrailer(rest: seq<Byte>) {
    |rest| >= 2 * BLOCK && |rest| % BLOCK == 0 && Zero(rest)
  }

  predicate Splits(bytes: seq<Byte>, rs: seq<Record>, rest: seq<Byte>, l: Limits) {
    Within(rs, l) && bytes == Serial(rs) + rest
  }

  ghost predicate IsArchive(bytes: seq<Byte>, l: Limits) {
    exists rs, rest :: Splits(bytes, rs, rest, l) && IsTrailer(rest)
  }

  /** Why rest, which follows entries records of total bytes, is refused. */
  predicate Refused(rest: seq<Byte>, entries: nat, total: nat, l: Limits, code: Code) {
    if |rest| < BLOCK then code == TrailingData
    else
      var h := rest[..BLOCK];
      if Zero(h) then code == TrailingData && !IsTrailer(rest)
      else match code
        case EntryLimit => entries >= l.entries
        case MemberTypeInvalid => entries < l.entries && !TypeAccepted(h[156])
        case SizeInvalid => entries < l.entries && TypeAccepted(h[156]) && !SizeReadable(h)
        case FileLimit => entries < l.entries && TypeAccepted(h[156]) && SizeReadable(h) && Size(h) > l.file
        case DirectoryPayload =>
          entries < l.entries && h[156] == 0x35 && SizeReadable(h) && 0 < Size(h) <= l.file
        case ExpansionLimit => entries < l.entries && HeaderAccepted(h, l) && total + Size(h) > l.expanded
        case TrailingData =>
          entries < l.entries && HeaderAccepted(h, l) && total + Size(h) <= l.expanded
          && BLOCK + Padded(Size(h)) > |rest|
  }

  /** A run of records is followed by something that is refused with this code. */
  ghost predicate RefusedAfter(bytes: seq<Byte>, l: Limits, code: Code) {
    exists rs, rest :: Splits(bytes, rs, rest, l) && Refused(rest, |rs|, Total(rs, l), l, code)
  }

  // ---------------------------------------------------------------- reading is unambiguous

  /** No further record, with its limits, can be read at the front of rest. */
  ghost predicate Stops(rest: seq<Byte>, entries: nat, total: nat, l: Limits) {
    |rest| >= BLOCK && HeaderAccepted(rest[..BLOCK], l) && |rest| >= BLOCK + Padded(Size(rest[..BLOCK]))
    ==> entries >= l.entries || total + Size(rest[..BLOCK]) > l.expanded
  }

  lemma {:induction false} StripKeeps(s: seq<Byte>)
    ensures Zero(s) ==> StripLeft(s) == []
  {
    if s != [] && IsFill(s[0]) {
      StripKeeps(s[1..]);
    }
  }

  lemma ZeroIsNoHeader(h: seq<Byte>)
    requires |h| == BLOCK && Zero(h)
    ensures !SizeReadable(h)
  {
    StripKeeps(h[124..136]);
  }

  lemma EndsStop(rest: seq<Byte>, entries: nat, total: nat, l: Limits)
    requires IsTrailer(rest) || exists code :: Refused(rest, entries, total, l, code)
    ensures Stops(rest, entries, total, l)
  {
    if |rest| >= BLOCK && Zero(rest[..BLOCK]) {
      ZeroIsNoHeader(rest[..BLOCK]);
    }
  }

  lemma LengthStep(n: nat, length: nat, total: nat, size: nat)
    requires BLOCK * n <= length <= total + 1023 * n && length % BLOCK == 0
    ensures BLOCK * (n + 1) <= length + BLOCK + Padded(size) <= total + size + 1023 * (n + 1)
    ensures (length + BLOCK + Padded(size)) % BLOCK == 0
  {
  }

  lemma {:induction false} SerialLength(rs: seq<Record>, l: Limits)
    requires AreRecords(rs, l)
    ensures BLOCK * |rs| <= |Serial(rs)| && |Serial(rs)| % BLOCK == 0
    ensures |Serial(rs)| <= Total(rs, l) + 1023 * |rs|
  {
    if rs != [] {
      var front, size := rs[..|rs| - 1], Size(rs[|rs| - 1].header);
      SerialLength(front, l);
      LengthStep(|front|, |Serial(front)|, Total(front, l), size);
      hide Padded, Size, SizeField, TypeAccepted;
    }
  }

  lemma {:induction false} Prefix(rs: seq<Record>, k: nat, l: Limits)
    requires AreRecords(rs, l) && k <= |rs|
    ensures AreRecords(rs[..k], l) && Serial(rs[..k]) <= Serial(rs) && Total(rs[..k], l) <= Total(rs, l)
  {
    if k == |rs| {
      assert rs[..k] == rs;
    } else {
      var front := rs[..|rs| - 1];
      Prefix(front, k, l);
      assert front[..k] == rs[..k];
    }
  }

  lemma SliceOf(bytes: seq<Byte>, front: seq<Byte>, h: seq<Byte>, d: seq<Byte>)
    requires front + (h + d) <= bytes
    ensures bytes[|front|..][..|h|] == h && |bytes[|front|..]| >= |h| + |d|
    ensures bytes[|front|..][|h|..|h| + |d|] == d
  {
    assert bytes[..|front + (h + d)|] == front + (h + d);
    assert forall i :: 0 <= i < |h + d| ==> bytes[|front| + i] == (h + d)[i];
  }

  /** The record after the first k is what stands in the bytes there. */
  lemma RecordAt(bytes: seq<Byte>, rs: seq<Record>, rest: seq<Byte>, k: nat, l: Limits)
    requires Splits(bytes, rs, rest, l) && k < |rs|
    ensures AreRecords(rs[..k], l) && Serial(rs[..k]) <= bytes
    ensures var tail := bytes[|Serial(rs[..k])|..];
            && |tail| >= BLOCK + Padded(Size(rs[k].header))
            && tail[..BLOCK] == rs[k].header && tail[BLOCK..BLOCK + Padded(Size(rs[k].header))] == rs[k].data
    ensures Total(rs[..k], l) + Size(rs[k].header) <= Total(rs, l)
  {
    Prefix(rs, k, l);
    Prefix(rs, k + 1, l);
    assert rs[..k + 1][..k] == rs[..k];
    SliceOf(bytes, Serial(rs[..k]), rs[k].header, rs[k].data);
  }

  lemma {:induction false} Agree(
    bytes: seq<Byte>, rs: seq<Record>, rest: seq<Byte>, rs': seq<Record>, rest': seq<Byte>, k: nat, l: Limits)
    requires Splits(bytes, rs, rest, l) && Splits(bytes, rs', rest', l)
    requires k <= |rs| && k <= |rs'|
    ensures rs[..k] == rs'[..k]
  {
    hide Serial, Total, SizeField, IsOctal, Octal, Padded;
    if k > 0 {
      Agree(bytes, rs, rest, rs', rest', k - 1, l);
      RecordAt(bytes, rs, rest, k - 1, l);
      RecordAt(bytes, rs', rest', k - 1, l);
      assert rs[..k] == rs[..k - 1] + [rs[k - 1]];
    }
  }

  /** A run of records that stops cannot be a proper prefix of another. */
  lemma NotShorter(bytes: seq<Byte>, rs: seq<Record>, rest: seq<Byte>, rs': seq<Record>, rest': seq<Byte>, l: Limits)
    requires Splits(bytes, rs, rest, l) && Splits(bytes, rs', rest', l)
    requires Stops(rest, |rs|, Total(rs, l), l)
    ensures |rs'| <= |rs|
  {
    assert rs[..|rs|] == rs;
    assert bytes[|Serial(rs)|..] == rest;
    if |rs| < |rs'| {
      Agree(bytes, rs, rest, rs', rest', |rs|, l);
      RecordAt(bytes, rs', rest', |rs|, l);
    }
  }

  /** There is one way to read a buffer, and so one verdict. */
  lemma Unambiguous(bytes: seq<Byte>, rs: seq<Record>, rest: seq<Byte>, rs': seq<Record>, rest': seq<Byte>, l: Limits)
    requires Splits(bytes, rs, rest, l) && Splits(bytes, rs', rest', l)
    requires Stops(rest, |rs|, Total(rs, l), l) && Stops(rest', |rs'|, Total(rs', l), l)
    ensures rs == rs' && rest == rest'
  {
    NotShorter(bytes, rs, rest, rs', rest', l);
    NotShorter(bytes, rs', rest', rs, rest, l);
    Agree(bytes, rs, rest, rs', rest', |rs|, l);
    assert rs[..|rs|] == rs && rs'[..|rs|] == rs';
    assert bytes[|Serial(rs)|..] == rest && bytes[|Serial(rs)|..] == rest';
  }

  lemma TrailerNotRefused(rest: seq<Byte>, entries: nat, total: nat, l: Limits, code: Code)
    requires IsTrailer(rest)
    ensures !Refused(rest, entries, total, l, code)
  {
    assert Zero(rest[..BLOCK]);
  }

  /** Every buffer is either an archive or refused with one code, never both. */
  lemma VerdictIsUnique(bytes: seq<Byte>, l: Limits, code: Code, code': Code)
    ensures !(IsArchive(bytes, l) && RefusedAfter(bytes, l, code))
    ensures RefusedAfter(bytes, l, code) && RefusedAfter(bytes, l, code') ==> code == code'
  {
    hide AreRecords, Serial, Total, Refused, IsTrailer, Stops;
    if IsArchive(bytes, l) && RefusedAfter(bytes, l, code) {
      var rs, rest :| Splits(bytes, rs, rest, l) && IsTrailer(rest);
      var rs', rest' :| Splits(bytes, rs', rest', l) && Refused(rest', |rs'|, Total(rs', l), l, code);
      EndsStop(rest, |rs|, Total(rs, l), l);
      EndsStop(rest', |rs'|, Total(rs', l), l);
      Unambiguous(bytes, rs, rest, rs', rest', l);
      TrailerNotRefused(rest, |rs|, Total(rs, l), l, code);
    }
    if RefusedAfter(bytes, l, code) && RefusedAfter(bytes, l, code') {
      var rs, rest :| Splits(bytes, rs, rest, l) && Refused(rest, |rs|, Total(rs, l), l, code);
      var rs', rest' :| Splits(bytes, rs', rest', l) && Refused(rest', |rs'|, Total(rs', l), l, code');
      EndsStop(rest, |rs|, Total(rs, l), l);
      EndsStop(rest', |rs'|, Total(rs', l), l);
      Unambiguous(bytes, rs, rest, rs', rest', l);
      OneCode(rest, |rs|, Total(rs, l), l, code, code');
    }
  }

  lemma OneCode(rest: seq<Byte>, entries: nat, total: nat, l: Limits, code: Code, code': Code)
    requires Refused(rest, entries, total, l, code) && Refused(rest, entries, total, l, code')
    ensures code == code'
  {
    hide Zero, SizeField, IsOctal, Padded, IsTrailer;
  }

  /** A member of any other type than file and directory, a link or a device, is refused
      wherever it comes. */
  lemma OthersAreRefused(rs: seq<Record>, h: seq<Byte>, more: seq<Byte>, l: Limits)
    requires Within(rs, l) && |rs| < l.entries && |h| == BLOCK && h[156] !in {0x30, 0, 0x35}
    ensures RefusedAfter(Serial(rs) + (h + more), l, MemberTypeInvalid) && !IsArchive(Serial(rs) + (h + more), l)
  {
    hide Serial, AreRecords, Total, SizeField, IsOctal;
    var bytes, rest := Serial(rs) + (h + more), h + more;
    assert rest[..BLOCK] == h && !Zero(h);
    assert Splits(bytes, rs, rest, l) && Refused(rest, |rs|, Total(rs, l), l, MemberTypeInvalid);
    VerdictIsUnique(bytes, l, MemberTypeInvalid, MemberTypeInvalid);
  }

  /** So an accepted archive holds only files and directories, and only files have data. */
  lemma OnlyFilesAndDirectories(bytes: seq<Byte>, rs: seq<Record>, rest: seq<Byte>, l: Limits, k: nat)
    requires Splits(bytes, rs, rest, l) && k < |rs|
    ensures |rs[k].header| == BLOCK && rs[k].header[156] in {0x30, 0, 0x35} && (rs[k].header[156] == 0x35 ==> rs[k].data == [])
  {
    hide SizeField, IsOctal;
    assert IsRecord(rs[k], l);
  }

  // ---------------------------------------------------------------- the walk

  lemma Extend(expanded: seq<Byte>, rs: seq<Record>, offset: nat, h: seq<Byte>, l: Limits)
    returns (rs': seq<Record>)
    requires AreRecords(rs, l) && offset + BLOCK <= |expanded| && expanded[..offset] == Serial(rs)
    requires h == expanded[offset..offset + BLOCK] && HeaderAccepted(h, l)
    requires offset + BLOCK + Padded(Size(h)) <= |expanded|
    ensures |rs'| == |rs| + 1 && AreRecords(rs', l) && Total(rs', l) == Total(rs, l) + Size(h)
    ensures Serial(rs') == expanded[..offset + BLOCK + Padded(Size(h))]
  {
    hide AreRecords, Serial, Total, Padded, Size, SizeField;
    var end := offset + BLOCK + Padded(Size(h));
    var r := Record(h, expanded[offset + BLOCK..end]);
    assert IsRecord(r, l);
    OneMore(rs, r, l);
    rs' := rs + [r];
    assert expanded[..end] == expanded[..offset] + (h + expanded[offset + BLOCK..end]);
  }

  lemma OneMore(rs: seq<Record>, r: Record, l: Limits)
    requires AreRecords(rs, l) && IsRecord(r, l)
    ensures AreRecords(rs + [r], l) && Serial(rs + [r]) == Serial(rs) + (r.header + r.data)
    ensures Total(rs + [r], l) == Total(rs, l) + Size(r.header)
  {
    hide IsRecord, Size;
    assert (rs + [r])[..|rs|] == rs;
  }

  lemma AcceptAt(bytes: seq<Byte>, offset: nat, rs: seq<Record>, l: Limits)
    requires Within(rs, l) && offset <= |bytes| && bytes[..offset] == Serial(rs) && IsTrailer(bytes[offset..])
    ensures IsArchive(bytes, l)
  {
    assert bytes == bytes[..offset] + bytes[offset..];
    assert Splits(bytes, rs, bytes[offset..], l);
  }

  lemma RefuseAt(bytes: seq<Byte>, offset: nat, rs: seq<Record>, l: Limits, code: Code)
    requires Within(rs, l) && offset <= |bytes| && bytes[..offset] == Serial(rs)
    requires Refused(bytes[offset..], |rs|, Total(rs, l), l, code)
    ensures RefusedAfter(bytes, l, code) && !IsArchive(bytes, l)
  {
    assert bytes == bytes[..offset] + bytes[offset..];
    assert Splits(bytes, rs, bytes[offset..], l);
    VerdictIsUnique(bytes, l, code, code);
  }

  lemma NoRecords(l: Limits)
    ensures AreRecords([], l) && Serial([]) == [] && Total([], l) == 0
  {
  }

  /** The walk accepts exactly the archives of the grammar and refuses everything else
      with the code of the first thing that is wrong. */
  method PreflightTar(expanded: seq<Byte>, l: Limits) returns (verdict: Option<Code>)
    requires ValidLimits(l)
    ensures verdict == None <==> IsArchive(expanded, l)
    ensures verdict.Some? ==> RefusedAfter(expanded, l, verdict.value)
  {
    hide IsArchive, RefusedAfter, Size, SizeField, IsOctal, TypeAccepted, Zero, Serial, Total, AreRecords, Padded;
    NoRecords(l);
    var offset, entries, total := 0, 0, 0;
    ghost var rs: seq<Record> := [];
    while offset + BLOCK <= |expanded|
      invariant 0 <= offset && 0 <= entries && 0 <= total
      invariant offset <= |expanded| ==>
        Within(rs, l) && expanded[..offset] == Serial(rs) && entries == |rs| && total == Total(rs, l)
      invariant offset > |expanded| ==> RefusedAfter(expanded, l, TrailingData)
      decreases |expanded| - offset
    {
      var header := expanded[offset..offset + BLOCK];
      ghost var rest := expanded[offset..];
      assert rest[..BLOCK] == header;
      if Zero(header) {
        if |expanded| - offset >= 2 * BLOCK && |expanded| % BLOCK == 0 && Zero(expanded[offset..]) {
          SerialLength(rs, l);
          AcceptAt(expanded, offset, rs, l);
          return None;
        }
        SerialLength(rs, l);
        RefuseAt(expanded, offset, rs, l, TrailingData); return Some(TrailingData);
      }
      entries := entries + 1;
      if entries > l.entries { RefuseAt(expanded, offset, rs, l, EntryLimit); return Some(EntryLimit); }
      if !TypeAccepted(header[156]) { RefuseAt(expanded, offset, rs, l, MemberTypeInvalid); return Some(MemberTypeInvalid); }
      if !IsOctal(SizeField(header)) { RefuseAt(expanded, offset, rs, l, SizeInvalid); return Some(SizeInvalid); }
      var size := Size(header);
      if size > l.file { RefuseAt(expanded, offset, rs, l, FileLimit); return Some(FileLimit); }
      if header[156] == 0x35 && size != 0 { RefuseAt(expanded, offset, rs, l, DirectoryPayload); return Some(DirectoryPayload); }
      total := total + size;
      if total > l.expanded { RefuseAt(expanded, offset, rs, l, ExpansionLimit); return Some(ExpansionLimit); }
      var next := offset + BLOCK + Padded(size);
      if next <= |expanded| {
        rs := Extend(expanded, rs, offset, header, l);
      } else {
        RefuseAt(expanded, offset, rs, l, TrailingData);
      }
      offset := next;
    }
    if offset <= |expanded| {
      RefuseAt(expanded, offset, rs, l, TrailingData);
    }
    VerdictIsUnique(expanded, l, TrailingData, TrailingData);
    verdict := Some(TrailingData);
  }

  // ---------------------------------------------------------------- well-formed archives are accepted

  function Zeros(n: nat): (z: seq<Byte>)
    ensures |z| == n && Zero(z)
  {
    seq(n, i => 0)
  }

  function RoundUp(n: nat): nat {
    (n + 10239) / 10240 * 10240
  }

  /** An archive the usual way: records, two zero blocks, zeros up to a whole 10240 bytes. */
  function Pack(rs: seq<Record>): seq<Byte> {
    Serial(rs) + Zeros(RoundUp(|Serial(rs)| + 2 * BLOCK) - |Serial(rs)|)
  }

  /** The bound on decompression, which is enforced before the walk starts. */
  function ExpansionBound(l: Limits): int {
    l.expanded + l.entries * 2048 + 10240
  }

  lemma PackTrailer(rs: seq<Record>, l: Limits)
    requires AreRecords(rs, l)
    ensures Pack(rs) == Serial(rs) + Pack(rs)[|Serial(rs)|..] && IsTrailer(Pack(rs)[|Serial(rs)|..])
    ensures |Pack(rs)| <= Total(rs, l) + 1023 * |rs| + 1024 + 10239
  {
    SerialLength(rs, l);
    hide AreRecords, Serial, Total, RoundUp, Zeros;
    RoundUpFits(|Serial(rs)|);
    assert Pack(rs)[|Serial(rs)|..] == Zeros(RoundUp(|Serial(rs)| + 2 * BLOCK) - |Serial(rs)|);
  }

  lemma RoundUpFits(size: nat)
    requires size % BLOCK == 0
    ensures var n := RoundUp(size + 2 * BLOCK) - size; 2 * BLOCK <= n < 2 * BLOCK + 10240 && n % BLOCK == 0
  {
    var k := (size + 2 * BLOCK + 10239) / 10240;
    assert RoundUp(size + 2 * BLOCK) == k * 20 * BLOCK && size == size / BLOCK * BLOCK;
  }

  /** No archive that the walk would accept in its usual packing is lost to the
      decompression bound, even when every limit is used up. */
  lemma PackedArchiveFits(rs: seq<Record>, l: Limits)
    requires ValidLimits(l) && Within(rs, l)
    ensures IsArchive(Pack(rs), l) && |Pack(rs)| <= ExpansionBound(l)
  {
    PackTrailer(rs, l);
    AcceptAt(Pack(rs), |Serial(rs)|, rs, l);
  }

  /** A regular file has the type '0', or a zero byte in old archives; a directory has '5'. */
  datatype Kind = File | OldFile | Directory

  function Flag(k: Kind): Byte {
    match k
    case File => 0x30
    case OldFile => 0
    case Directory => 0x35
  }

  /** A regular file or a directory, with the header bytes the walk does not look at. */
  datatype Entry = Entry(before: seq<Byte>, between: seq<Byte>, after: seq<Byte>, kind: Kind, body: seq<Byte>) {
    predicate Valid(l: Limits) {
      && |before| == 124 && |between| == 20 && |after| == 355
      && |body| <= l.file && (kind == Directory ==> body == [])
    }
  }

  function Power(k: nat): nat {
    if k == 0 then 1 else 8 * Power(k - 1)
  }

  function Digits(n: nat, k: nat): (d: seq<Byte>)
    ensures |d| == k && (k > 0 ==> IsOctal(d))
  {
    if k == 0 then [] else Digits(n / 8, k - 1) + [0x30 + n % 8]
  }

  lemma {:induction false} DigitsRoundTrip(n: nat, k: nat)
    requires n < Power(k)
    ensures Octal(Digits(n, k)) == n
  {
    if k > 0 {
      DigitsRoundTrip(n / 8, k - 1);
      var d := Digits(n, k);
      assert d[..k - 1] == Digits(n / 8, k - 1);
    }
  }

  function HeaderOf(e: Entry): seq<Byte> {
    e.before + (Digits(|e.body|, 11) + [0]) + e.between + [Flag(e.kind)] + e.after
  }

  function RecordOf(e: Entry): Record {
    Record(HeaderOf(e), e.body + Zeros(Padded(|e.body|) - |e.body|))
  }

  function RecordsOf(es: seq<Entry>): (rs: seq<Record>)
    ensures |rs| == |es| && forall i :: 0 <= i < |es| ==> rs[i] == RecordOf(es[i])
  {
    if es == [] then [] else RecordsOf(es[..|es| - 1]) + [RecordOf(es[|es| - 1])]
  }

  function Bytes(es: seq<Entry>): nat {
    if es == [] then 0 else Bytes(es[..|es| - 1]) + |es[|es| - 1].body|
  }

  lemma HeaderRoundTrip(e: Entry, l: Limits)
    requires ValidLimits(l) && e.Valid(l)
    ensures HeaderAccepted(HeaderOf(e), l) && Size(HeaderOf(e)) == |e.body| && IsRecord(RecordOf(e), l)
  {
    hide Digits, Octal, StripLeft, StripRight, Power, IsOctal;
    var h, d := HeaderOf(e), Digits(|e.body|, 11);
    FieldOfHeader(e);
    FieldStrips(d);
    PowerOfField();
    DigitsRoundTrip(|e.body|, 11);
  }

  lemma FieldOfHeader(e: Entry)
    requires |e.before| == 124 && |e.between| == 20 && |e.after| == 355
    ensures |HeaderOf(e)| == BLOCK && HeaderOf(e)[124..136] == Digits(|e.body|, 11) + [0]
    ensures HeaderOf(e)[156] == Flag(e.kind)
  {
    hide Digits, IsOctal;
    var rest := e.between + [Flag(e.kind)] + e.after;
    assert HeaderOf(e) == e.before + (Digits(|e.body|, 11) + [0]) + rest;
  }

  lemma FieldStrips(d: seq<Byte>)
    requires IsOctal(d)
    ensures StripRight(StripLeft(d + [0])) == d
  {
    assert StripLeft(d + [0]) == d + [0] && (d + [0])[..|d|] == d;
    assert StripRight(d + [0]) == StripRight(d) == d;
  }

  lemma PowerOfField()
    ensures Power(11) == 0x2_0000_0000
  {
    assert Power(3) == 512;
    assert Power(6) == 512 * 512;
    assert Power(9) == 512 * 512 * 512;
  }

  lemma {:induction false} RecordsAreWithin(es: seq<Entry>, l: Limits)
    requires ValidLimits(l) && forall i :: 0 <= i < |es| ==> es[i].Valid(l)
    ensures AreRecords(RecordsOf(es), l) && Total(RecordsOf(es), l) == Bytes(es)
  {
    forall i | 0 <= i < |es| ensures IsRecord(RecordsOf(es)[i], l) {
      HeaderRoundTrip(es[i], l);
    }
    if es != [] {
      RecordsAreWithin(es[..|es| - 1], l);
      HeaderRoundTrip(es[|es| - 1], l);
      assert RecordsOf(es)[..|es| - 1] == RecordsOf(es[..|es| - 1]);
    }
  }

  lemma {:induction false} SameTotal(rs: seq<Record>, l: Limits, l': Limits)
    requires l.file == l'.file && AreRecords(rs, l)
    ensures AreRecords(rs, l') && Total(rs, l) == Total(rs, l')
  {
    if rs != [] {
      SameTotal(rs[..|rs| - 1], l, l');
    }
  }

  /** Packed records can be read back in no other way. */
  lemma OnlyItsOwnRecords(rs: seq<Record>, rs': seq<Record>, rest': seq<Byte>, l: Limits)
    requires AreRecords(rs, l) && Splits(Pack(rs), rs', rest', l) && IsTrailer(rest')
    ensures rs == rs'
  {
    PackTrailer(rs, l);
    var rest := Pack(rs)[|Serial(rs)|..];
    var loose := Limits(l.archive, Total(rs, l) + l.expanded, l.file, |rs| + l.entries);
    SameTotal(rs, l, loose);
    SameTotal(rs', l, loose);
    EndsStop(rest, |rs|, Total(rs, loose), loose);
    EndsStop(rest', |rs'|, Total(rs', loose), loose);
    Unambiguous(Pack(rs), rs, rest, rs', rest', loose);
  }

  /** The walk accepts a packed list of entries exactly if they are within the limits on
      count and total size. */
  lemma PackedEntriesAccepted(es: seq<Entry>, l: Limits)
    requires ValidLimits(l) && forall i :: 0 <= i < |es| ==> es[i].Valid(l)
    ensures IsArchive(Pack(RecordsOf(es)), l) <==> |es| <= l.entries && Bytes(es) <= l.expanded
  {
    hide IsTrailer, Pack, AreRecords, Bytes, RecordsOf, Total;
    var rs := RecordsOf(es);
    RecordsAreWithin(es, l);
    if |es| <= l.entries && Bytes(es) <= l.expanded {
      PackedArchiveFits(rs, l);
    } else if IsArchive(Pack(rs), l) {
      var rs', rest' :| Splits(Pack(rs), rs', rest', l) && IsTrailer(rest');
      OnlyItsOwnRecords(rs, rs', rest', l);
    }
  }
}
