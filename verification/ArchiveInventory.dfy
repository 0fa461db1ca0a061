/** The inventory an archive is read into: adding entries under limits, and the final
    check that the paths form one unambiguous tree. */
module ArchiveInventory {
  import opened Outcomes
  import opened Ordering
  import opened ArchivePath
  import opened Splitting
  import opened TarPreflight

  datatype Named = Named(name: string, directory: bool)

  datatype Asset = Asset(path: string, body: seq<Byte>)

  datatype InventoryCode =
    | TooManyEntries | PathInvalid | PathCollision | NegativeSize | DirectoryWithPayload
    | FileTooLarge | ExpansionTooLarge | SizeMismatch | IndexRequired | ParentIsFile

  // ---------------------------------------------------------------- trees of names

  /** p is n itself or what stands before one of its slashes. */
  predicate ParentOf(p: string, n: string) {
    p <= n && (|p| == |n| || n[|p|] == '/')
  }

  /** No two entries or implied directories differ only by case. */
  ghost predicate CaseClear(names: seq<Named>) {
    forall m, n, p, q :: m in names && n in names && ParentOf(p, m.name) && ParentOf(q, n.name) && Fold(p) == Fold(q) ==> p == q
  }

  /** What other entries lie under is a directory. */
  ghost predicate ParentsAreDirectories(names: seq<Named>) {
    forall m, n :: m in names && n in names && ParentOf(m.name, n.name) && m.name != n.name ==> m.directory
  }

  ghost predicate TreeSound(names: seq<Named>) {
    CaseClear(names) && ParentsAreDirectories(names)
  }

  predicate FoldsDistinct(names: seq<Named>) {
    forall i, j :: 0 <= i < j < |names| ==> Fold(names[i].name) != Fold(names[j].name)
  }

  lemma FoldPrefix(s: string, k: nat)
    requires k <= |s|
    ensures Fold(s[..k]) == Fold(s)[..k]
  {
  }

  /** In an accepted tree no file is an ancestor of another entry, even on a file system
      that ignores case. */
  lemma NoFileIsAnAncestor(names: seq<Named>, f: Named, n: Named)
    requires TreeSound(names) && f in names && n in names && !f.directory
    ensures !(Fold(f.name) + "/" <= Fold(n.name))
  {
    if Fold(f.name) + "/" <= Fold(n.name) {
      var p := n.name[..|f.name|];
      FoldPrefix(n.name, |p|);
      assert (Fold(f.name) + "/")[..|p|] == Fold(f.name);
      assert Fold(n.name)[|p|] == (Fold(f.name) + "/")[|p|];
      assert ParentOf(p, n.name) && ParentOf(f.name, f.name);
    }
  }

  lemma PartsAreParents(name: string, p: string)
    ensures ParentOf(p, name) <==> exists end | 1 <= end <= |Split(name, '/')| :: Parent(name, end) == p
  {
    if ParentOf(p, name) {
      if |p| == |name| {
        SplitThenJoin(name, '/');
        assert Split(name, '/')[..|Split(name, '/')|] == Split(name, '/');
        assert Parent(name, |Split(name, '/')|) == p;
      } else {
        var end := SlashIsParent(name, |p|);
        assert Parent(name, end) == p;
      }
    }
    forall end | 1 <= end <= |Split(name, '/')| ensures ParentOf(Parent(name, end), name) {
      ParentIsPrefix(name, end);
    }
  }

  // ---------------------------------------------------------------- the inventory

  function TotalSize(assets: seq<Asset>): nat {
    if assets == [] then 0 else TotalSize(assets[..|assets| - 1]) + |assets[|assets| - 1].body|
  }

  function Files(names: seq<Named>): seq<string> {
    if names == [] then []
    else Files(names[..|names| - 1]) + if names[|names| - 1].directory then [] else [names[|names| - 1].name]
  }

  function Paths(assets: seq<Asset>): (r: seq<string>)
    ensures |r| == |assets| && forall i :: 0 <= i < |assets| ==> r[i] == assets[i].path
  {
    if assets == [] then [] else Paths(assets[..|assets| - 1]) + [assets[|assets| - 1].path]
  }

  /** What an inventory keeps from entry to entry. */
  ghost predicate Kept(l: Limits, entries: int, total: int, names: seq<Named>, folded: set<string>, assets: seq<Asset>) {
    && entries == |names| <= l.entries
    && FoldsDistinct(names) && folded == (set n | n in names :: Fold(n.name))
    && (forall n :: n in names ==> Clean(n.name) || n == Named("", true))
    && total == TotalSize(assets) <= l.expanded
    && (forall a :: a in assets ==> |a.body| <= l.file)
    && Paths(assets) == Files(names)
  }

  /** Why an entry is refused: the first check that fails. */
  function Fault(l: Limits, entries: int, total: int, folded: set<string>,
                 raw: string, directory: bool, size: int, stored: seq<Byte>): Option<InventoryCode>
  {
    if entries >= l.entries then Some(TooManyEntries)
    else if CleanPath(raw, directory) == None then Some(PathInvalid)
    else if Fold(CleanPath(raw, directory).value) in folded then Some(PathCollision)
    else if size < 0 then Some(NegativeSize)
    else if directory then (if size != 0 then Some(DirectoryWithPayload) else None)
    else if size > l.file then Some(FileTooLarge)
    else if total + size > l.expanded then Some(ExpansionTooLarge)
    else if |stored| != size then Some(SizeMismatch)
    else None
  }

  lemma KeptByAdd(l: Limits, entries: int, total: int, names: seq<Named>, folded: set<string>, assets: seq<Asset>,
                  n: Named, body: seq<Byte>)
    requires Kept(l, entries, total, names, folded, assets) && entries < l.entries
    requires Fold(n.name) !in folded && (Clean(n.name) || n == Named("", true))
    requires !n.directory ==> |body| <= l.file && total + |body| <= l.expanded
    ensures Kept(l, entries + 1, if n.directory then total else total + |body|, names + [n], folded + {Fold(n.name)},
                 if n.directory then assets else assets + [Asset(n.name, body)])
  {
    hide Clean;
    var names' := names + [n];
    assert names'[..|names|] == names;
    forall i, j | 0 <= i < j < |names'| ensures Fold(names'[i].name) != Fold(names'[j].name) {
      assert names[i] in names;
    }
    assert (set m | m in names' :: Fold(m.name)) == folded + {Fold(n.name)};
    assert (assets + [Asset(n.name, body)])[..|assets|] == assets;
  }

  lemma Known(l: Limits, entries: int, total: int, names: seq<Named>, folded: set<string>, assets: seq<Asset>)
    requires Kept(l, entries, total, names, folded, assets)
    ensures entries == |names| && total == TotalSize(assets)
    ensures forall f :: f in folded <==> exists n :: n in names && Fold(n.name) == f
  {
  }

  lemma {:induction false} PathsDiffer(names: seq<Named>, i: nat, j: nat)
    requires FoldsDistinct(names) && i < j < |Files(names)|
    ensures Files(names)[i] != Files(names)[j]
  {
    var front := names[..|names| - 1];
    if j < |Files(front)| {
      PathsDiffer(front, i, j);
    } else {
      FilesAreNamed(front, i);
    }
  }

  lemma {:induction false} FilesAreNamed(names: seq<Named>, i: nat)
    requires i < |Files(names)|
    ensures Named(Files(names)[i], false) in names
  {
    var front := names[..|names| - 1];
    if i < |Files(front)| {
      FilesAreNamed(front, i);
    } else {
      assert Named(Files(names)[i], false) == names[|names| - 1];
    }
  }

  /** The walk over all parents so far: each folded parent is seen under one spelling. */
  ghost predicate Seen(seen: map<string, string>, walked: set<string>) {
    && (forall p :: p in walked ==> Fold(p) in seen && seen[Fold(p)] == p)
    && (forall f :: f in seen ==> seen[f] in walked && Fold(seen[f]) == f)
  }

  /** Everything walked is a parent of an entry. */
  ghost predicate FromNames(walked: set<string>, names: seq<Named>) {
    forall p :: p in walked ==> exists n :: n in names && ParentOf(p, n.name)
  }

  /** All parents of these entries have been walked, and none of them is a file. */
  ghost predicate Covered(walked: set<string>, some: seq<Named>, names: seq<Named>) {
    forall n, p :: n in some && ParentOf(p, n.name) ==> p in walked && (p == n.name || Named(p, false) !in names)
  }

  lemma CoveredIsSound(seen: map<string, string>, walked: set<string>, names: seq<Named>)
    requires Seen(seen, walked) && Covered(walked, names, names)
    ensures TreeSound(names)
  {
    forall m, n, p, q | m in names && n in names && ParentOf(p, m.name) && ParentOf(q, n.name) && Fold(p) == Fold(q)
      ensures p == q
    {
      assert p in walked && q in walked;
    }
    forall m, n | m in names && n in names && ParentOf(m.name, n.name) && m.name != n.name ensures m.directory {
      assert m.directory || m == Named(m.name, false);
    }
  }

  lemma Collide(seen: map<string, string>, walked: set<string>, names: seq<Named>, n: Named, p: string)
    requires Seen(seen, walked) && FromNames(walked, names) && n in names && ParentOf(p, n.name)
    requires Fold(p) in seen && seen[Fold(p)] != p
    ensures !CaseClear(names)
  {
    var q := seen[Fold(p)];
    var m :| m in names && ParentOf(q, m.name);
    assert Fold(p) == Fold(q) && p != q;
  }

  lemma WalkOn(seen: map<string, string>, walked: set<string>, names: seq<Named>, n: Named, p: string)
    requires Seen(seen, walked) && (Fold(p) in seen ==> seen[Fold(p)] == p)
    requires FromNames(walked, names) && n in names && ParentOf(p, n.name)
    ensures Seen(seen[Fold(p) := p], walked + {p}) && FromNames(walked + {p}, names)
  {
  }

  lemma FileParent(names: seq<Named>, n: Named, p: string)
    requires n in names && ParentOf(p, n.name) && p != n.name && Named(p, false) in names
    ensures !ParentsAreDirectories(names)
  {
    assert ParentOf(Named(p, false).name, n.name) && !Named(p, false).directory;
  }

  /** The parents of a name up to an end are walked, and none of them is a file. */
  ghost predicate PartsWalked(walked: set<string>, name: string, end: nat, names: seq<Named>)
    requires end <= |Split(name, '/')|
  {
    forall e | 1 <= e <= end ::
      Parent(name, e) in walked && (e < |Split(name, '/')| ==> Named(Parent(name, e), false) !in names)
  }

  class Inventory {
    const limits: Limits
    var entries: int
    var total: int
    var names: seq<Named>
    var folded: set<string>
    var assets: seq<Asset>

    ghost predicate Valid()
      reads this
    {
      Kept(limits, entries, total, names, folded, assets)
    }

    constructor (limits: Limits)
      requires ValidLimits(limits)
      ensures Valid() && this.limits == limits && names == [] && assets == []
    {
      this.limits := limits;
      entries, total, names, folded, assets := 0, 0, [], {}, [];
    }

    /** Takes one entry; stored is what the archive holds for it. The entry is refused
        with the first fault, or becomes the last name and, for a file, the last asset,
        with its exact bytes. */
    method Add(raw: string, directory: bool, size: int, stored: seq<Byte>) returns (refused: Option<InventoryCode>)
      requires Valid()
      modifies this
      ensures refused == Fault(limits, old(entries), old(total), old(folded), raw, directory, size, stored)
      ensures refused == None <==>
        && old(|names|) < limits.entries && CleanPath(raw, directory).Some?
        && (forall n :: n in old(names) ==> Fold(n.name) != Fold(CleanPath(raw, directory).value))
        && (if directory then size == 0 else size == |stored| <= limits.file && TotalSize(old(assets)) + |stored| <= limits.expanded)
      ensures refused == None ==>
        && Valid() && CleanPath(raw, directory).Some?
        && var name := CleanPath(raw, directory).value;
           && names == old(names) + [Named(name, directory)]
           && assets == if directory then old(assets) else old(assets) + [Asset(name, stored)]
    {
      hide Kept, Clean, Fold;
      Known(limits, entries, total, names, folded, assets);
      entries := entries + 1;
      if entries > limits.entries { return Some(TooManyEntries); }
      var path := CleanPath(raw, directory);
      if path == None { return Some(PathInvalid); }
      var name := path.value;
      if Fold(name) in folded { return Some(PathCollision); }
      AcceptedSpellings(raw, directory, name);
      if size >= 0 && (if directory then size == 0 else size <= limits.file && total + size <= limits.expanded && |stored| == size) {
        KeptByAdd(limits, entries - 1, total, names, folded, assets, Named(name, directory), stored);
      }
      hide CleanPath, Spells;
      folded := folded + {Fold(name)};
      names := names + [Named(name, directory)];
      if size < 0 { return Some(NegativeSize); }
      if directory {
        return if size != 0 then Some(DirectoryWithPayload) else None;
      }
      if size > limits.file { return Some(FileTooLarge); }
      total := total + size;
      if total > limits.expanded { return Some(ExpansionTooLarge); }
      // The read is bounded by one byte more than the declared size.
      var body := stored[..if |stored| < size + 1 then |stored| else size + 1];
      if |body| != size { return Some(SizeMismatch); }
      assert body == stored;
      assets := assets + [Asset(name, body)];
      refused := None;
    }

    /** The archive is accepted exactly if it has an index page and its names form a sound
        tree, and then all its files come back, in order of their paths. */
    method Finish() returns (r: Result<seq<Asset>, InventoryCode>)
      requires Valid()
      ensures r.Ok? <==> Named("index.html", false) in names && TreeSound(names)
      ensures r.Ok? ==> multiset(r.value) == multiset(assets) && StrictlySorted(r.value, (a: Asset) => a.path)
      ensures r == Err(IndexRequired) <==> Named("index.html", false) !in names
      ensures r == Err(PathCollision) ==> !CaseClear(names)
      ensures r == Err(ParentIsFile) ==> !ParentsAreDirectories(names)
    {
      if Named("index.html", false) !in names { return Err(IndexRequired); }
      hide Valid, CaseClear, ParentsAreDirectories, Seen, FromNames, Covered, ParentOf, Parent, Split, Fold;
      var seen: map<string, string> := map[];
      ghost var walked: set<string> := {};
      assert Seen(seen, walked) && FromNames(walked, names) && Covered(walked, [], names) by { NothingWalked(names); }
      for i := 0 to |names|
        invariant Seen(seen, walked) && FromNames(walked, names) && Covered(walked, names[..i], names)
      {
        var fault: Option<InventoryCode>;
        fault, seen, walked := WalkParents(names, i, seen, walked);
        if fault.Some? { return Err(fault.value); }
      }
      assert names[..|names|] == names;
      CoveredIsSound(seen, walked, names);
      PathsDistinct(limits, entries, total, names, folded, assets);
      SortedIsPermutation(assets, (a: Asset) => a.path);
      r := Ok(Sorted(assets, (a: Asset) => a.path));
    }
  }

  lemma NothingWalked(names: seq<Named>)
    ensures Seen(map[], {}) && FromNames({}, names) && Covered({}, [], names)
  {
  }

  lemma PathsDistinct(l: Limits, entries: int, total: int, names: seq<Named>, folded: set<string>, assets: seq<Asset>)
    requires Kept(l, entries, total, names, folded, assets)
    ensures DistinctKeys(assets, (a: Asset) => a.path)
  {
    forall i, j | 0 <= i < j < |assets| ensures assets[i].path != assets[j].path {
      PathsDiffer(names, i, j);
    }
  }

  lemma CoverOne(walked: set<string>, i: nat, names: seq<Named>)
    requires i < |names| && Covered(walked, names[..i], names)
    requires PartsWalked(walked, names[i].name, |Split(names[i].name, '/')|, names)
    ensures Covered(walked, names[..i + 1], names)
  {
    var name := names[i].name;
    forall n, p | n in names[..i + 1] && ParentOf(p, n.name)
      ensures p in walked && (p == n.name || Named(p, false) !in names)
    {
      if n !in names[..i] {
        assert n == names[i];
        PartsAreParents(name, p);
        var end :| 1 <= end <= |Split(name, '/')| && Parent(name, end) == p;
        ParentIsPrefix(name, end);
      }
    }
  }

  lemma PartIsParent(name: string, end: nat)
    requires 1 <= end <= |Split(name, '/')|
    ensures ParentOf(Parent(name, end), name) && (end < |Split(name, '/')| ==> Parent(name, end) != name)
  {
    ParentIsPrefix(name, end);
  }

  lemma NextPart(walked: set<string>, name: string, end: nat, names: seq<Named>)
    requires 1 <= end <= |Split(name, '/')| && PartsWalked(walked, name, end - 1, names)
    requires end < |Split(name, '/')| ==> Named(Parent(name, end), false) !in names
    ensures PartsWalked(walked + {Parent(name, end)}, name, end, names)
  {
  }

  lemma CoveredGrows(walked: set<string>, more: set<string>, some: seq<Named>, names: seq<Named>)
    requires Covered(walked, some, names) && walked <= more
    ensures Covered(more, some, names)
  {
  }

  /** All parents of one entry: the inner loop of Finish. */
  method WalkParents(names: seq<Named>, i: nat, before: map<string, string>, ghost start: set<string>)
    returns (fault: Option<InventoryCode>, seen: map<string, string>, ghost walked: set<string>)
    requires i < |names| && Seen(before, start) && FromNames(start, names) && Covered(start, names[..i], names)
    ensures fault == None ==> Seen(seen, walked) && FromNames(walked, names) && Covered(walked, names[..i + 1], names)
    ensures fault == None || fault == Some(PathCollision) || fault == Some(ParentIsFile)
    ensures fault == Some(PathCollision) ==> !CaseClear(names)
    ensures fault == Some(ParentIsFile) ==> !ParentsAreDirectories(names)
  {
    var name := names[i].name;
    var parts := Split(name, '/');
    seen, walked := before, start;
    assert PartsWalked(walked, name, 0, names) && names[i] in names;
    hide CaseClear, ParentsAreDirectories, ParentOf, FromNames, Seen, Covered, PartsWalked, Split, Fold;
    for end := 1 to |parts| + 1
      invariant Seen(seen, walked) && FromNames(walked, names) && start <= walked
      invariant PartsWalked(walked, name, end - 1, names)
    {
      var parent := Join(parts[..end], '/');
      assert parent == Parent(name, end);
      PartIsParent(name, end);
      if Fold(parent) in seen && seen[Fold(parent)] != parent {
        Collide(seen, walked, names, names[i], parent);
        return Some(PathCollision), seen, walked;
      }
      WalkOn(seen, walked, names, names[i], parent);
      seen := seen[Fold(parent) := parent];
      if end < |parts| && Named(parent, false) in names {
        FileParent(names, names[i], parent);
        return Some(ParentIsFile), seen, walked;
      }
      NextPart(walked, name, end, names);
      walked := walked + {parent};
    }
    CoveredGrows(start, walked, names[..i], names);
    CoverOne(walked, i, names);
    fault := None;
  }

  /** The sizes in the manifest of an accepted archive add up to the total that was
      bounded, whatever the order of the assets. */
  lemma {:induction false} SizesAddUp(xs: seq<Asset>, ys: seq<Asset>)
    requires multiset(xs) == multiset(ys)
    ensures TotalSize(xs) == TotalSize(ys)
  {
    if xs != [] {
      var k := LastElsewhere(xs, ys);
      BytesWithout(ys, k);
      SizesAddUp(xs[..|xs| - 1], ys[..k] + ys[k + 1..]);
    } else {
      SameMembers(xs, ys);
    }
  }

  lemma {:induction false} BytesWithout(ys: seq<Asset>, k: nat)
    requires k < |ys|
    ensures TotalSize(ys) == TotalSize(ys[..k] + ys[k + 1..]) + |ys[k].body|
  {
    var rest, front := ys[..k] + ys[k + 1..], ys[..|ys| - 1];
    if k == |ys| - 1 {
      assert rest == front;
    } else {
      WithoutInner(ys, k);
      BytesWithout(front, k);
    }
  }
}
