/** The bound on a zip central directory: the walk over its physical records, against
    the grammar of PKWARE APPNOTE.TXT sections 4.3.12 and 4.3.16 that it accepts. */
module ZipDirectory {
  import opened Outcomes
  import opened TarPreflight

  datatype ZipCode = LayoutInvalid | TooManyEntries | PathInvalid | ExtendedMetadata

  const HEADER := 46
  const EOCD := 22

  // ---------------------------------------------------------------- little-endian fields

  function U16(b: seq<Byte>, i: nat): nat
    requires i + 2 <= |b|
  {
    b[i] as int + 256 * b[i + 1] as int
  }

  function U32(b: seq<Byte>, i: nat): nat
    requires i + 4 <= |b|
  {
    U16(b, i) + 0x1_0000 * U16(b, i + 2)
  }

  function Signature(b: seq<Byte>): (s: seq<Byte>) {
    if |b| < 4 then [] else b[..4]
  }

  const LOCAL: seq<Byte> := [0x50, 0x4b, 3, 4]
  const CENTRAL: seq<Byte> := [0x50, 0x4b, 1, 2]
  const END: seq<Byte> := [0x50, 0x4b, 5, 6]

  // ---------------------------------------------------------------- the grammar

  /** A central record: the fixed header and the name. */
  datatype Central = Central(header: seq<Byte>, name: seq<Byte>)

  predicate HeaderUsable(h: seq<Byte>) {
    |h| == HEADER && Signature(h) == CENTRAL && 0 < U16(h, 28) <= 1024 && U16(h, 30) == 0 && U16(h, 32) == 0
  }

  predicate IsCentral(c: Central) {
    HeaderUsable(c.header) && |c.name| == U16(c.header, 28)
  }

  predicate AreCentral(cs: seq<Central>) {
    forall i :: 0 <= i < |cs| ==> IsCentral(cs[i])
  }

  function Directory(cs: seq<Central>): seq<Byte> {
    if cs == [] then [] else Directory(cs[..|cs| - 1]) + (cs[|cs| - 1].header + cs[|cs| - 1].name)
  }

  /** The end record of a single-disk archive without a comment, for a directory of this
      many records and bytes at this offset. */
  predicate EndRecord(e: seq<Byte>, entries: nat, size: nat, offset: nat) {
    && |e| == EOCD && Signature(e) == END && U16(e, 4) == 0 && U16(e, 6) == 0 && U16(e, 20) == 0
    && U16(e, 8) == U16(e, 10) == entries != 65535 && U32(e, 12) == size && U32(e, 16) == offset
  }

  predicate Composed(payload: seq<Byte>, body: seq<Byte>, cs: seq<Central>, e: seq<Byte>, l: Limits) {
    && AreCentral(cs) && |cs| <= l.entries && payload == body + Directory(cs) + e
    && EndRecord(e, |cs|, |Directory(cs)|, |body|) && Signature(payload) == LOCAL
  }

  /** The directory is exactly partitioned into the declared number of records. */
  ghost predicate IsZip(payload: seq<Byte>, l: Limits) {
    exists body, cs, e :: Composed(payload, body, cs, e, l)
  }

  /** The fixed parts fit together, before any record is looked at. */
  predicate LayoutUsable(payload: seq<Byte>) {
    && |payload| >= EOCD && Signature(payload) == LOCAL
    && var e := payload[|payload| - EOCD..];
       EndRecord(e, U16(e, 10), U32(e, 12), U32(e, 16)) && U32(e, 16) + U32(e, 12) == |payload| - EOCD
  }

  function Declared(payload: seq<Byte>): nat
    requires |payload| >= EOCD
  {
    U16(payload[|payload| - EOCD..], 10)
  }

  function CentralPart(payload: seq<Byte>): seq<Byte>
    requires LayoutUsable(payload)
  {
    payload[U32(payload[|payload| - EOCD..], 16)..|payload| - EOCD]
  }

  /** Why rest, which follows some records of the directory, is refused. */
  predicate RestRefused(rest: seq<Byte>, found: nat, declared: nat, l: Limits, code: ZipCode) {
    if rest == [] then code == LayoutInvalid && found != declared
    else if found >= l.entries then code == TooManyEntries
    else if |rest| < HEADER || Signature(rest) != CENTRAL then code == LayoutInvalid
    else if !(0 < U16(rest, 28) <= 1024) then code == PathInvalid
    else if U16(rest, 30) != 0 || U16(rest, 32) != 0 then code == ExtendedMetadata
    else code == LayoutInvalid && |rest| < HEADER + U16(rest, 28)
  }

  ghost predicate RecordsRefused(dir: seq<Byte>, declared: nat, l: Limits, code: ZipCode) {
    exists cs, rest :: AreCentral(cs) && |cs| <= l.entries && dir == Directory(cs) + rest
                       && RestRefused(rest, |cs|, declared, l, code)
  }

  ghost predicate ZipRefused(payload: seq<Byte>, l: Limits, code: ZipCode) {
    if !LayoutUsable(payload) then code == LayoutInvalid
    else if Declared(payload) > l.entries then code == TooManyEntries
    else RecordsRefused(CentralPart(payload), Declared(payload), l, code)
  }

  // ---------------------------------------------------------------- a directory reads one way

  lemma {:induction false} Front(cs: seq<Central>, k: nat)
    requires AreCentral(cs) && k <= |cs|
    ensures Directory(cs[..k]) <= Directory(cs) && HEADER * |cs| <= |Directory(cs)|
  {
    if k < |cs| {
      var front := cs[..|cs| - 1];
      Front(front, k);
      assert front[..k] == cs[..k];
    } else if cs != [] {
      Front(cs[..k - 1], k - 1);
      assert cs[..k] == cs;
    }
  }

  lemma CentralAt(dir: seq<Byte>, cs: seq<Central>, k: nat)
    requires AreCentral(cs) && Directory(cs) <= dir && k < |cs|
    ensures Directory(cs[..k]) <= dir
    ensures var tail := dir[|Directory(cs[..k])|..];
            && |tail| >= HEADER + |cs[k].name| && tail[..HEADER] == cs[k].header
            && tail[HEADER..HEADER + |cs[k].name|] == cs[k].name
  {
    Front(cs, k);
    Front(cs, k + 1);
    assert cs[..k + 1][..k] == cs[..k];
    SliceOf(dir, Directory(cs[..k]), cs[k].header, cs[k].name);
  }

  lemma {:induction false} SameRecords(dir: seq<Byte>, cs: seq<Central>, cs': seq<Central>, k: nat)
    requires AreCentral(cs) && AreCentral(cs') && Directory(cs) <= dir && Directory(cs') <= dir
    requires k <= |cs| && k <= |cs'|
    ensures cs[..k] == cs'[..k]
  {
    hide U16, Signature, HeaderUsable, Directory;
    if k > 0 {
      SameRecords(dir, cs, cs', k - 1);
      CentralAt(dir, cs, k - 1);
      CentralAt(dir, cs', k - 1);
      assert cs[..k] == cs[..k - 1] + [cs[k - 1]] && cs'[..k] == cs'[..k - 1] + [cs'[k - 1]];
    }
  }

  /** Whoever walks the physical records of a directory finds the same ones. */
  lemma OnePartition(dir: seq<Byte>, cs: seq<Central>, cs': seq<Central>)
    requires AreCentral(cs) && AreCentral(cs') && dir == Directory(cs) == Directory(cs')
    ensures cs == cs'
  {
    var k: nat := if |cs| <= |cs'| then |cs| else |cs'|;
    SameRecords(dir, cs, cs', k);
    assert cs[..|cs|] == cs && cs'[..|cs'|] == cs';
    Front(cs, k);
    Front(cs', k);
    if |cs| < |cs'| {
      CentralAt(dir, cs', k);
    } else if |cs'| < |cs| {
      CentralAt(dir, cs, k);
    }
  }

  /** The fields of a record, read in place or from a slice. */
  lemma Fields(whole: seq<Byte>, at: nat, part: seq<Byte>)
    requires HEADER <= |part| && at + |part| <= |whole| && part == whole[at..at + |part|]
    ensures Signature(part) == whole[at..at + 4]
    ensures U16(part, 28) == U16(whole, at + 28) && U16(part, 30) == U16(whole, at + 30) && U16(part, 32) == U16(whole, at + 32)
  {
    assert part[..4] == whole[at..at + 4];
  }

  lemma RecordNotRefused(rest: seq<Byte>, c: Central, found: nat, declared: nat, l: Limits, code: ZipCode)
    requires IsCentral(c) && |rest| >= HEADER + |c.name| && rest[..HEADER] == c.header && found < l.entries
    ensures !RestRefused(rest, found, declared, l, code)
  {
    Fields(rest, 0, c.header);
    assert rest[..4] == rest[0..4];
  }

  /** What is left over after a proper prefix of the records begins with the next one. */
  lemma RefusedPrefix(dir: seq<Byte>, cs: seq<Central>, cs': seq<Central>, rest: seq<Byte>)
    requires AreCentral(cs) && AreCentral(cs') && dir == Directory(cs) == Directory(cs') + rest
    ensures |cs'| <= |cs| && (|cs'| == |cs| ==> rest == [])
    ensures |cs'| < |cs| ==>
      var c := cs[|cs'|];
      IsCentral(c) && |rest| >= HEADER + |c.name| && rest[..HEADER] == c.header
  {
    var k: nat := if |cs| <= |cs'| then |cs| else |cs'|;
    SameRecords(dir, cs, cs', k);
    assert cs[..|cs|] == cs && cs'[..|cs'|] == cs';
    assert dir[|Directory(cs')|..] == rest;
    if |cs'| < |cs| {
      CentralAt(dir, cs, k);
    } else if |cs| < |cs'| {
      CentralAt(dir, cs', k);
    }
  }

  lemma RefusedIsIncomplete(dir: seq<Byte>, declared: nat, l: Limits, code: ZipCode, cs: seq<Central>)
    requires RecordsRefused(dir, declared, l, code) && AreCentral(cs) && dir == Directory(cs)
    ensures |cs| != declared || |cs| > l.entries
  {
    hide AreCentral, IsCentral, Directory;
    var cs', rest :| AreCentral(cs') && |cs'| <= l.entries && dir == Directory(cs') + rest
                     && RestRefused(rest, |cs'|, declared, l, code);
    RefusedPrefix(dir, cs, cs', rest);
    if |cs'| < |cs| && |cs| <= l.entries {
      RecordNotRefused(rest, cs[|cs'|], |cs'|, declared, l, code);
    }
  }

  lemma ZipParts(payload: seq<Byte>, body: seq<Byte>, cs: seq<Central>, e: seq<Byte>, l: Limits)
    requires Composed(payload, body, cs, e, l)
    ensures LayoutUsable(payload) && CentralPart(payload) == Directory(cs) && Declared(payload) == |cs|
  {
    assert payload[|payload| - EOCD..] == e;
  }

  /** An archive is never refused. */
  lemma NeverBoth(payload: seq<Byte>, l: Limits, code: ZipCode)
    ensures !(IsZip(payload, l) && ZipRefused(payload, l, code))
  {
    if IsZip(payload, l) && ZipRefused(payload, l, code) {
      var body, cs, e :| Composed(payload, body, cs, e, l);
      ZipParts(payload, body, cs, e, l);
      RefusedIsIncomplete(CentralPart(payload), Declared(payload), l, code, cs);
    }
  }

  /** Two walks that are refused stop at the same place. */
  lemma SameStop(dir: seq<Byte>, cs: seq<Central>, rest: seq<Byte>, cs': seq<Central>, rest': seq<Byte>, declared: nat, l: Limits, code: ZipCode)
    requires AreCentral(cs) && AreCentral(cs') && dir == Directory(cs) + rest == Directory(cs') + rest'
    requires |cs| <= |cs'| <= l.entries && RestRefused(rest, |cs|, declared, l, code)
    ensures cs == cs' && rest == rest'
  {
    hide RestRefused, IsCentral, Directory;
    SameRecords(dir, cs, cs', |cs|);
    assert cs[..|cs|] == cs && cs'[..|cs'|] == cs';
    assert dir[|Directory(cs)|..] == rest && dir[|Directory(cs')|..] == rest';
    if |cs| < |cs'| {
      CentralAt(dir, cs', |cs|);
      RecordNotRefused(rest, cs'[|cs|], |cs|, declared, l, code);
    }
  }

  /** A refused archive is refused for one reason. */
  lemma OneRefusal(payload: seq<Byte>, l: Limits, code: ZipCode, code': ZipCode)
    requires ZipRefused(payload, l, code) && ZipRefused(payload, l, code')
    ensures code == code'
  {
    hide AreCentral, Directory, RestRefused;
    if LayoutUsable(payload) && Declared(payload) <= l.entries {
      var dir, declared := CentralPart(payload), Declared(payload);
      var cs, rest :| AreCentral(cs) && |cs| <= l.entries && dir == Directory(cs) + rest && RestRefused(rest, |cs|, declared, l, code);
      var cs', rest' :| AreCentral(cs') && |cs'| <= l.entries && dir == Directory(cs') + rest' && RestRefused(rest', |cs'|, declared, l, code');
      if |cs| <= |cs'| {
        SameStop(dir, cs, rest, cs', rest', declared, l, code);
      } else {
        SameStop(dir, cs', rest', cs, rest, declared, l, code');
      }
      OneReason(rest, |cs|, declared, l, code, code');
    }
  }

  lemma OneReason(rest: seq<Byte>, found: nat, declared: nat, l: Limits, code: ZipCode, code': ZipCode)
    requires RestRefused(rest, found, declared, l, code) && RestRefused(rest, found, declared, l, code')
    ensures code == code'
  {
  }

  /** The declared count of an accepted archive is the number of records any walk over
      its directory finds. */
  lemma DeclaredCountIsTrue(payload: seq<Byte>, l: Limits, cs: seq<Central>)
    requires IsZip(payload, l) && LayoutUsable(payload) && AreCentral(cs) && CentralPart(payload) == Directory(cs)
    ensures Declared(payload) == |cs| <= l.entries
  {
    var body, cs', e :| Composed(payload, body, cs', e, l);
    ZipParts(payload, body, cs', e, l);
    OnePartition(CentralPart(payload), cs, cs');
  }

  // ---------------------------------------------------------------- the walk

  lemma Grow(dir: seq<Byte>, at: nat, cs: seq<Central>)
    requires AreCentral(cs) && at + HEADER <= |dir| && dir[..at] == Directory(cs)
    requires HeaderUsable(dir[at..at + HEADER])
    requires at + HEADER + U16(dir[at..at + HEADER], 28) <= |dir|
    ensures var end := at + HEADER + U16(dir[at..at + HEADER], 28);
            var cs' := cs + [Central(dir[at..at + HEADER], dir[at + HEADER..end])];
            AreCentral(cs') && Directory(cs') == dir[..end]
  {
    hide U16, Signature, AreCentral, Directory;
    var end := at + HEADER + U16(dir[at..at + HEADER], 28);
    var c := Central(dir[at..at + HEADER], dir[at + HEADER..end]);
    OneMore(cs, c);
    assert dir[..end] == dir[..at] + (dir[at..at + HEADER] + dir[at + HEADER..end]);
  }

  lemma OneMore(cs: seq<Central>, c: Central)
    requires AreCentral(cs) && IsCentral(c)
    ensures AreCentral(cs + [c]) && Directory(cs + [c]) == Directory(cs) + (c.header + c.name)
  {
    hide IsCentral;
    assert (cs + [c])[..|cs|] == cs;
  }

  lemma Refuse(dir: seq<Byte>, at: nat, cs: seq<Central>, declared: nat, l: Limits, code: ZipCode)
    requires at <= |dir| && AreCentral(cs) && |cs| <= l.entries && dir[..at] == Directory(cs)
    requires RestRefused(dir[at..], |cs|, declared, l, code)
    ensures RecordsRefused(dir, declared, l, code)
  {
    hide RestRefused, AreCentral, Directory;
    assert dir == dir[..at] + dir[at..];
  }

  lemma Accept(payload: seq<Byte>, cs: seq<Central>, l: Limits)
    requires LayoutUsable(payload) && AreCentral(cs) && |cs| == Declared(payload) <= l.entries
    requires CentralPart(payload) == Directory(cs)
    ensures IsZip(payload, l)
  {
    hide U16, U32, Signature, EndRecord, Directory, AreCentral;
    var e := payload[|payload| - EOCD..];
    var body := payload[..U32(e, 16)];
    assert payload == body + CentralPart(payload) + e;
    assert Composed(payload, body, cs, e, l);
  }

  lemma SubSlice(s: seq<Byte>, a: nat, b: nat, i: nat, j: nat)
    requires a + i <= a + j <= b <= |s|
    ensures s[a..b][i..j] == s[a + i..a + j]
  {
    var u, v := s[a..b][i..j], s[a + i..a + j];
    forall k | 0 <= k < j - i ensures u[k] == v[k] {
      assert s[a..b][i + k] == s[a + i + k];
    }
  }

  /** What the fields of the payload at a position say about the rest of the directory. */
  lemma InPlace(payload: seq<Byte>, start: nat, end: nat, position: nat)
    requires start <= position && position + HEADER <= end <= |payload|
    ensures var rest := payload[start..end][position - start..];
            && Signature(rest) == payload[position..position + 4] && U16(rest, 28) == U16(payload, position + 28)
            && U16(rest, 30) == U16(payload, position + 30) && U16(rest, 32) == U16(payload, position + 32)
    ensures var h := payload[start..end][position - start..position - start + HEADER];
            && |h| == HEADER && Signature(h) == payload[position..position + 4] && U16(h, 28) == U16(payload, position + 28)
            && U16(h, 30) == U16(payload, position + 30) && U16(h, 32) == U16(payload, position + 32)
  {
    var dir, at := payload[start..end], position - start;
    SubSlice(payload, start, end, at, end - start);
    SubSlice(payload, start, end, at, at + HEADER);
    assert dir[at..] == dir[at..end - start];
    Fields(payload, position, dir[at..]);
    Fields(payload, position, dir[at..at + HEADER]);
  }

  predicate PlaceRefused(payload: seq<Byte>, end: nat, position: nat, found: nat, l: Limits, code: ZipCode)
    requires position < end <= |payload|
  {
    if found >= l.entries then code == TooManyEntries
    else if position + HEADER > end || payload[position..position + 4] != CENTRAL then code == LayoutInvalid
    else if !(0 < U16(payload, position + 28) <= 1024) then code == PathInvalid
    else if U16(payload, position + 30) != 0 || U16(payload, position + 32) != 0 then code == ExtendedMetadata
    else code == LayoutInvalid && position + HEADER + U16(payload, position + 28) > end
  }

  /** The part up to this position is made of these records. */
  predicate Walked(payload: seq<Byte>, start: nat, position: nat, cs: seq<Central>) {
    start <= position <= |payload| && AreCentral(cs) && payload[start..position] == Directory(cs)
  }

  lemma RefuseInPlace(payload: seq<Byte>, start: nat, end: nat, position: nat, cs: seq<Central>, entries: nat, l: Limits, code: ZipCode)
    requires Walked(payload, start, position, cs) && position < end <= |payload| && |cs| <= l.entries
    requires PlaceRefused(payload, end, position, |cs|, l, code)
    ensures RecordsRefused(payload[start..end], entries, l, code)
  {
    hide U16, Signature, AreCentral, Directory;
    if position + HEADER <= end {
      InPlace(payload, start, end, position);
    }
    SubSlice(payload, start, end, 0, position - start);
    Refuse(payload[start..end], position - start, cs, entries, l, code);
  }

  lemma GrowInPlace(payload: seq<Byte>, start: nat, end: nat, position: nat, cs: seq<Central>)
    returns (cs': seq<Central>)
    requires Walked(payload, start, position, cs) && position + HEADER <= end <= |payload|
    requires payload[position..position + 4] == CENTRAL && 0 < U16(payload, position + 28) <= 1024
    requires U16(payload, position + 30) == U16(payload, position + 32) == 0
    requires position + HEADER + U16(payload, position + 28) <= end
    ensures |cs'| == |cs| + 1 && Walked(payload, start, position + HEADER + U16(payload, position + 28), cs')
  {
    hide U16, Signature, AreCentral, Directory;
    InPlace(payload, start, end, position);
    var dir, at, next := payload[start..end], position - start, position + HEADER + U16(payload, position + 28);
    SubSlice(payload, start, end, 0, at);
    Grow(dir, at, cs);
    SubSlice(payload, start, end, at, at + HEADER);
    SubSlice(payload, start, end, at + HEADER, next - start);
    SubSlice(payload, start, end, 0, next - start);
    cs' := cs + [Central(payload[position..position + HEADER], payload[position + HEADER..next])];
  }

  lemma WalkedAll(payload: seq<Byte>, start: nat, end: nat, cs: seq<Central>)
    requires Walked(payload, start, end, cs)
    ensures AreCentral(cs) && Directory(cs) == payload[start..end]
  {
  }

  lemma CountRefused(dir: seq<Byte>, cs: seq<Central>, entries: nat, l: Limits)
    requires AreCentral(cs) && |cs| <= l.entries && dir == Directory(cs) && |cs| != entries
    ensures RecordsRefused(dir, entries, l, LayoutInvalid)
  {
    assert dir[..|dir|] == dir;
    Refuse(dir, |dir|, cs, entries, l, LayoutInvalid);
  }

  /** The walk over the records between two positions. */
  method WalkRecords(payload: seq<Byte>, start: nat, end: nat, entries: nat, l: Limits)
    returns (verdict: Option<ZipCode>, ghost cs: seq<Central>)
    requires start <= end <= |payload| && entries <= l.entries
    ensures verdict == None ==> AreCentral(cs) && |cs| == entries && Directory(cs) == payload[start..end]
    ensures verdict.Some? ==> RecordsRefused(payload[start..end], entries, l, verdict.value)
  {
    cs := [];
    assert Walked(payload, start, start, cs);
    hide Walked, RecordsRefused, U16, AreCentral, Directory;
    var position, physical := start, 0;
    while position < end
      invariant start <= position <= end && physical == |cs| <= l.entries && Walked(payload, start, position, cs)
    {
      physical := physical + 1;
      if physical > l.entries {
        RefuseInPlace(payload, start, end, position, cs, entries, l, TooManyEntries);
        return Some(TooManyEntries), cs;
      }
      if position + HEADER > end || payload[position..position + 4] != CENTRAL {
        RefuseInPlace(payload, start, end, position, cs, entries, l, LayoutInvalid);
        return Some(LayoutInvalid), cs;
      }
      var nameSize, extraSize, commentSize :=
        U16(payload, position + 28), U16(payload, position + 30), U16(payload, position + 32);
      if !(0 < nameSize <= 1024) {
        RefuseInPlace(payload, start, end, position, cs, entries, l, PathInvalid);
        return Some(PathInvalid), cs;
      }
      if extraSize != 0 || commentSize != 0 {
        RefuseInPlace(payload, start, end, position, cs, entries, l, ExtendedMetadata);
        return Some(ExtendedMetadata), cs;
      }
      if position + HEADER + nameSize > end {
        RefuseInPlace(payload, start, end, position, cs, entries, l, LayoutInvalid);
        return Some(LayoutInvalid), cs;
      }
      cs := GrowInPlace(payload, start, end, position, cs);
      position := position + HEADER + nameSize + extraSize + commentSize;
    }
    verdict := None;
    assert AreCentral(cs) && Directory(cs) == payload[start..end] by {
      WalkedAll(payload, start, end, cs);
    }
    if physical != entries {
      CountRefused(payload[start..end], cs, entries, l);
      verdict := Some(LayoutInvalid);
    }
  }

  /** The bounds check on the directory of a zip archive accepts exactly the archives of
      the grammar, and otherwise names the first thing that is wrong. */
  method CheckDirectory(payload: seq<Byte>, l: Limits) returns (verdict: Option<ZipCode>)
    requires ValidLimits(l)
    ensures verdict == None <==> IsZip(payload, l)
    ensures verdict.Some? ==> ZipRefused(payload, l, verdict.value)
  {
    hide IsZip, RecordsRefused, AreCentral, Directory;
    if !(|payload| >= EOCD && Signature(payload) == LOCAL && Signature(payload[|payload| - EOCD..]) == END) {
      NeverBoth(payload, l, LayoutInvalid);
      return Some(LayoutInvalid);
    }
    var tail := payload[|payload| - EOCD..];
    var disk, centralDisk, diskEntries, entries := U16(tail, 4), U16(tail, 6), U16(tail, 8), U16(tail, 10);
    var centralSize, centralOffset, commentSize := U32(tail, 12), U32(tail, 16), U16(tail, 20);
    if !(disk == centralDisk == commentSize == 0 && diskEntries == entries && entries != 65535
         && centralOffset + centralSize == |payload| - EOCD) {
      NeverBoth(payload, l, LayoutInvalid);
      return Some(LayoutInvalid);
    }
    assert LayoutUsable(payload);
    if entries > l.entries {
      NeverBoth(payload, l, TooManyEntries);
      return Some(TooManyEntries);
    }
    ghost var cs;
    verdict, cs := WalkRecords(payload, centralOffset, |payload| - EOCD, entries, l);
    if verdict == None {
      Accept(payload, cs, l);
    } else {
      NeverBoth(payload, l, verdict.value);
    }
  }

  // ---------------------------------------------------------------- a written archive is accepted

  /** Numbers as a writer puts them, the low byte first. */
  function Short(n: nat): (b: seq<Byte>)
    requires n < 0x1_0000
  {
    [n % 256, n / 256]
  }

  function Long(n: nat): (b: seq<Byte>)
    requires n < 0x1_0000_0000
  {
    Short(n % 0x1_0000) + Short(n / 0x1_0000)
  }

  /** A record of the directory without extra field and comment, with the header bytes that
      the walk does not look at. */
  datatype Listed = Listed(before: seq<Byte>, after: seq<Byte>, name: seq<Byte>) {
    predicate Valid() {
      |before| == 24 && |after| == 12 && 0 < |name| <= 1024
    }
  }

  function WrittenHeader(e: Listed): seq<Byte>
    requires e.Valid()
  {
    [0x50, 0x4b, 1, 2] + e.before + Short(|e.name|) + [0, 0, 0, 0] + e.after
  }

  function WrittenRecord(e: Listed): Central
    requires e.Valid()
  {
    Central(WrittenHeader(e), e.name)
  }

  function WrittenRecords(es: seq<Listed>): (cs: seq<Central>)
    requires forall i :: 0 <= i < |es| ==> es[i].Valid()
    ensures |cs| == |es|
  {
    seq(|es|, i requires 0 <= i < |es| => WrittenRecord(es[i]))
  }

  function WrittenEnd(entries: nat, size: nat, offset: nat): seq<Byte>
    requires entries < 0x1_0000 && size < 0x1_0000_0000 && offset < 0x1_0000_0000
  {
    [0x50, 0x4b, 5, 6] + [0, 0, 0, 0] + Short(entries) + Short(entries) + Long(size) + Long(offset) + [0, 0]
  }

  lemma ShortReads(before: seq<Byte>, n: nat, after: seq<Byte>)
    requires n < 0x1_0000
    ensures U16(before + Short(n) + after, |before|) == n
  {
  }

  lemma LongReads(before: seq<Byte>, n: nat, after: seq<Byte>)
    requires n < 0x1_0000_0000
    ensures U32(before + Long(n) + after, |before|) == n
  {
    var low, high := Short(n % 0x1_0000), Short(n / 0x1_0000);
    ShortReads(before, n % 0x1_0000, high + after);
    ShortReads(before + low, n / 0x1_0000, after);
    hide U16, Short;
    assert before + Long(n) + after == before + low + (high + after);
    assert before + Long(n) + after == (before + low) + high + after;
  }

  lemma WrittenRecordReads(e: Listed)
    requires e.Valid()
    ensures IsCentral(WrittenRecord(e))
  {
    var h := WrittenHeader(e);
    assert h[..4] == CENTRAL;
    ShortReads([0x50, 0x4b, 1, 2] + e.before, |e.name|, [0, 0, 0, 0] + e.after);
    assert h == ([0x50, 0x4b, 1, 2] + e.before) + Short(|e.name|) + ([0, 0, 0, 0] + e.after);
    assert h[30] == h[31] == h[32] == h[33] == 0;
  }

  lemma WrittenEndReads(entries: nat, size: nat, offset: nat)
    requires entries < 65535 && size < 0x1_0000_0000 && offset < 0x1_0000_0000
    ensures EndRecord(WrittenEnd(entries, size, offset), entries, size, offset)
  {
    var e := WrittenEnd(entries, size, offset);
    var start: seq<Byte> := [0x50, 0x4b, 5, 6] + [0, 0, 0, 0];
    var count, bytes, place, end := Short(entries), Long(size), Long(offset), [0, 0];
    ShortReads(start, entries, count + bytes + place + end);
    assert e == start + count + (count + bytes + place + end);
    ShortReads(start + count, entries, bytes + place + end);
    assert e == (start + count) + count + (bytes + place + end);
    LongReads(start + count + count, size, place + end);
    assert e == (start + count + count) + bytes + (place + end);
    LongReads(start + count + count + bytes, offset, end);
    assert e == (start + count + count + bytes) + place + end;
    assert e[..4] == END && e[4] == e[5] == e[6] == e[7] == e[20] == e[21] == 0;
    hide U32, Short, Long;
  }

  /** An archive written the usual way, any local part followed by the directory of any
      listed names and its end record, is accepted if their count is within the limit. */
  lemma WrittenArchiveAccepted(body: seq<Byte>, es: seq<Listed>, l: Limits)
    requires 4 <= |body| < 0x1_0000_0000 && body[..4] == [0x50, 0x4b, 3, 4]
    requires (forall i :: 0 <= i < |es| ==> es[i].Valid()) && |es| <= l.entries && |es| < 65535
    requires |Directory(WrittenRecords(es))| < 0x1_0000_0000
    ensures var dir := Directory(WrittenRecords(es));
            IsZip(body + dir + WrittenEnd(|es|, |dir|, |body|), l)
  {
    hide EndRecord, Directory, WrittenEnd, IsCentral, U16, U32;
    var cs, dir := WrittenRecords(es), Directory(WrittenRecords(es));
    forall i | 0 <= i < |cs| ensures IsCentral(cs[i]) { WrittenRecordReads(es[i]); }
    var e := WrittenEnd(|es|, |dir|, |body|);
    WrittenEndReads(|es|, |dir|, |body|);
    assert (body + dir + e)[..4] == body[..4];
    assert Composed(body + dir + e, body, cs, e, l);
  }
}
