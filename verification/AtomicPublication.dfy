/** Writing two files so that both appear or neither does, whatever system call fails and
    whatever other processes create or remove in between. */
module AtomicPublication {
  import opened FileSystems
  import opened Outcomes

  /** An output path, with its parent already resolved. */
  datatype Path = Path(absolute: bool, parent: string, name: string, inRepository: bool)

  datatype Code =
    | OutputPathInvalid | OutputParentInvalid | OutputParentChanged | OutputInsideRepository
    | OutputAlreadyExists | OutputPathCollision | OutputWriteFailed

  datatype Destination = Destination(parent: string, name: string, descriptor: int, directory: int)

  /** A path the program may be asked to write. */
  ghost predicate Usable(fs: FileSystem, p: Path) {
    p.absolute && p.name !in ["", ".", ".."] && fs.places(p.parent).Directory? && !p.inRepository
  }

  ghost function KeyOf(fs: FileSystem, p: Path): Key
    requires Usable(fs, p)
  {
    (fs.places(p.parent).id, p.name)
  }

  /** From this call on, looking at the parent finds a directory outside the repository, and
      opening it leads to the same one. */
  ghost predicate OpensParent(fs: FileSystem, p: Path, n: nat) {
    && fs.SeenAt(p.parent, n).Directory? && !p.inRepository && fs.SeenAt(p.parent, n + 1) == fs.SeenAt(p.parent, n)
    && !fs.script(n + 2).fails
  }

  /** Opens the parent of a path and makes sure that it is what the path led to. */
  method OpenParent(fs: FileSystem, p: Path) returns (r: Result<Destination, Code>)
    requires fs.Valid()
    modifies fs`tick, fs`entries, fs`foreign, fs`disturbances, fs`open, fs`next, fs`ours, fs`lost, fs`planted
    ensures fs.Valid() && fs.Passed(old(fs.Now()), fs.Now())
    ensures r.Err? ==> fs.open == old(fs.open)
    ensures r.Ok? ==>
      var d := r.value;
      && d.descriptor !in old(fs.open) && fs.open == old(fs.open)[d.descriptor := d.directory]
      && d.name == p.name && d.parent == p.parent
    ensures var seen, other, fails := fs.SeenAt(p.parent, old(fs.tick)), fs.SeenAt(p.parent, old(fs.tick) + 1), fs.script(old(fs.tick) + 2).fails;
            && (r.Ok? <==> OpensParent(fs, p, old(fs.tick))) && (r.Ok? ==> fs.tick == old(fs.tick) + 3)
            && (r == Err(OutputInsideRepository) <==> seen.Directory? && p.inRepository)
            && (r == Err(OutputParentChanged) <==> seen.Directory? && !p.inRepository && other.Directory? && other != seen && !fails)
            && (r.Err? ==> r.error in {OutputParentInvalid, OutputInsideRepository, OutputParentChanged})
    ensures fs.Smooth(old(fs.Now()), fs.Now()) ==>
      && (r.Ok? <==> fs.places(p.parent).Directory? && !p.inRepository)
      && (r.Ok? ==> r.value.directory == fs.places(p.parent).id)
  {
    hide FileSystem.Valid, FileSystem.Passed, FileSystem.Tame, FileSystem.SeenAt;
    ghost var s := fs.Now();
    var before := fs.Stat(p.parent);
    if !before.Directory? { return Err(OutputParentInvalid); }
    if p.inRepository { return Err(OutputInsideRepository); }
    ghost var t := fs.Now();
    var descriptor := fs.OpenDirectory(p.parent);
    fs.PassedAgain(s, t, fs.Now());
    if descriptor == None { return Err(OutputParentInvalid); }
    var d := descriptor.value;
    t := fs.Now();
    var status := fs.Fstat(d);
    fs.PassedAgain(s, t, fs.Now());
    if status == Some(before.id) { return Ok(Destination(p.parent, p.name, d, before.id)); }
    t := fs.Now();
    fs.CloseDirectory(d);
    fs.PassedAgain(s, t, fs.Now());
    r := Err(if status == None then OutputParentInvalid else OutputParentChanged);
  }

  method ResolveDestination(fs: FileSystem, p: Path) returns (r: Result<Destination, Code>)
    requires fs.Valid()
    modifies fs`tick, fs`entries, fs`foreign, fs`disturbances, fs`open, fs`next, fs`ours, fs`lost, fs`planted
    ensures fs.Valid() && fs.Passed(old(fs.Now()), fs.Now())
    ensures r.Err? ==> fs.open == old(fs.open)
    ensures r.Ok? ==>
      var d := r.value;
      && d.descriptor !in old(fs.open) && fs.open == old(fs.open)[d.descriptor := d.directory]
      && d.name == p.name && d.parent == p.parent
    ensures r == Err(OutputPathInvalid) <==> !p.absolute || p.name in ["", ".", ".."]
    ensures r.Ok? || r == Err(OutputAlreadyExists) ==> OpensParent(fs, p, old(fs.tick)) && !fs.script(old(fs.tick) + 3).fails
    ensures r == Err(OutputParentInvalid) && OpensParent(fs, p, old(fs.tick)) ==> fs.script(old(fs.tick) + 3).fails
    ensures r != Err(OutputWriteFailed) && r != Err(OutputPathCollision)
    ensures fs.Fair({p.name}, old(fs.Now()), fs.Now()) ==>
      && (r.Ok? <==> Usable(fs, p) && KeyOf(fs, p) !in old(fs.entries))
      && (r.Ok? ==> r.value.directory == fs.places(p.parent).id)
  {
    hide FileSystem.Valid, FileSystem.Confined, FileSystem.Tame, FileSystem.AheadOf, FileSystem.Plain;
    if !p.absolute || p.name in ["", ".", ".."] {
      fs.PassedNothing(fs.Now());
      return Err(OutputPathInvalid);
    }
    ghost var s := fs.Now();
    r := OpenParent(fs, p);
    if r.Err? { return; }
    var d := r.value.descriptor;
    ghost var t, names, k := fs.Now(), {p.name}, (r.value.directory, p.name);
    var found := fs.StatAt(d, p.name);
    ghost var u := fs.Now();
    fs.PassedAgain(s, t, u);
    if found != Absent {
      fs.CloseDirectory(d);
      fs.PassedAgain(s, u, fs.Now());
      r := Err(if found == Present then OutputAlreadyExists else OutputParentInvalid);
    }
    if fs.Fair(names, s, fs.Now()) {
      fs.FairParts(names, {}, {}, s, u, fs.Now());
      fs.FairParts(names, {}, {}, s, t, u);
      fs.FairNames(names, {}, {}, s, t, k);
    }
  }

  predicate Held(d: Destination, open: map<int, int>) {
    d.descriptor in open && open[d.descriptor] == d.directory
  }

  function Slot(d: Destination): Key {
    (d.directory, d.name)
  }

  /** The parent path still leads to the directory that was opened. */
  ghost predicate AtHome(fs: FileSystem, d: Destination) {
    fs.places(d.parent) == Directory(d.directory)
  }

  /** Looking at the parent from this call on finds it where it was opened. */
  predicate HomeSeen(fs: FileSystem, d: Destination, n: nat) {
    fs.SeenAt(d.parent, n) == Directory(d.directory) && !fs.script(n + 1).fails
  }

  method ParentUnchanged(fs: FileSystem, d: Destination) returns (same: bool)
    requires fs.Valid() && Held(d, fs.open)
    modifies fs`tick, fs`entries, fs`foreign, fs`disturbances, fs`ours, fs`lost, fs`planted
    ensures fs.Valid() && fs.Passed(old(fs.Now()), fs.Now())
    ensures fs.Smooth(old(fs.Now()), fs.Now()) ==> (same <==> AtHome(fs, d))
    ensures (same <==> HomeSeen(fs, d, old(fs.tick))) && (same ==> fs.tick == old(fs.tick) + 2)
  {
    hide FileSystem.Valid, FileSystem.Passed, FileSystem.Tame;
    var current := fs.Stat(d.parent);
    if current == Missing { return false; }
    ghost var t := fs.Now();
    var status := fs.Fstat(d.descriptor);
    fs.PassedAgain(old(fs.Now()), t, fs.Now());
    if status == None { return false; }
    same := current == Directory(d.directory) && status.value == d.directory;
  }

  /** The name is one of a temporary for this destination, with a random part that was drawn
      by now. */
  ghost predicate Drawn(script: nat -> Answer, d: Destination, k: Key, tick: nat) {
    k.0 == d.directory && exists n: nat :: n < tick && k.1 == TemporaryName(d.name, script(n).token)
  }

  lemma DrawnLater(script: nat -> Answer, d: Destination, k: Key, tick: nat, tick': nat)
    requires Drawn(script, d, k, tick) && tick <= tick'
    ensures Drawn(script, d, k, tick')
  {
    var n: nat :| n < tick && k.1 == TemporaryName(d.name, script(n).token);
    assert n < tick' && k.1 == TemporaryName(d.name, script(n).token);
  }

  method CreateTemporary(fs: FileSystem, d: Destination, ghost avoid: set<Key>) returns (r: Opened)
    requires fs.Valid() && Held(d, fs.open)
    modifies fs`tick, fs`entries, fs`foreign, fs`disturbances, fs`ours, fs`files, fs`next, fs`lost, fs`planted, fs`book
    ensures fs.Valid()
    ensures !r.Fresh? ==>
      && fs.Confined({}, {}, old(fs.Now()), fs.Now()) && fs.files == old(fs.files) && fs.book == old(fs.book)
      && fs.disturbances > old(fs.disturbances)
    ensures r.Fresh? ==>
      var k := (d.directory, r.name);
      && Drawn(fs.script, d, k, fs.tick) && fs.Confined({k}, {}, old(fs.Now()), fs.Now())
      && k in fs.ours && fs.ours[k] == [] && k in fs.entries && (k in old(fs.ours) ==> k in fs.lost)
      && fs.book == Created(old(fs.book), {k})
      && r.descriptor !in old(fs.files) && fs.files == old(fs.files)[r.descriptor := k]
    ensures r != NameTaken && fs.tick <= old(fs.tick) + 32
    ensures r == OpenFailed ==> fs.tick == old(fs.tick) + 32 || (fs.tick > 0 && fs.script(fs.tick - 1).fails)
    ensures fs.disturbances == old(fs.disturbances) ==> r.Fresh? && (d.directory, r.name) !in avoid
    ensures fs.Fair({}, old(fs.Now()), fs.Now()) ==> r.Fresh?
    ensures fs.Placid() && (d.directory, fs.Temporary(d.name)) !in old(fs.entries) && (d.directory, fs.Temporary(d.name)) !in avoid ==>
      fs.disturbances == old(fs.disturbances) && r.Fresh? && r.name == fs.Temporary(d.name)
  {
    hide FileSystem.Valid, FileSystem.Confined, FileSystem.Tame, FileSystem.AheadOf, FileSystem.Placid, TemporaryName;
    fs.PassedNothing(fs.Now());
    for attempt := 0 to 32
      invariant fs.Valid() && fs.Confined({}, {}, old(fs.Now()), fs.Now())
      invariant fs.files == old(fs.files) && fs.book == old(fs.book) && fs.tick == old(fs.tick) + attempt
      invariant attempt == 0 ==> fs.Now() == old(fs.Now())
      invariant attempt > 0 ==> fs.disturbances > old(fs.disturbances) && !fs.Fair({}, old(fs.Now()), fs.Now())
      invariant fs.Placid() && (d.directory, fs.Temporary(d.name)) !in old(fs.entries) && (d.directory, fs.Temporary(d.name)) !in avoid ==>
        attempt == 0
    {
      ghost var s := fs.Now();
      fs.PlacidToken(s.tick);
      r := fs.CreateExclusive(d.descriptor, d.name, avoid);
      ghost var e := if r.Fresh? then {(d.directory, r.name)} else {};
      fs.NothingThen(e, {}, old(fs.Now()), s, fs.Now());
      if r.Fresh? { fs.OnlyLost((d.directory, r.name), old(fs.Now()), s); }
      if r != NameTaken { return; }
    }
    r := OpenFailed;
  }

  /** Two calls on an open file, the second only if the first one worked. */
  method Twice(fs: FileSystem) returns (ok: bool)
    requires fs.Valid()
    modifies fs`tick, fs`entries, fs`foreign, fs`disturbances, fs`ours, fs`lost, fs`planted
    ensures fs.Valid() && fs.Passed(old(fs.Now()), fs.Now())
    ensures fs.Smooth(old(fs.Now()), fs.Now()) ==> ok
    ensures ok <==> AllWorked(fs.script, old(fs.tick), fs.tick)
    ensures ok ==> fs.tick == old(fs.tick) + 2
  {
    hide FileSystem.Valid, FileSystem.Passed, FileSystem.Tame;
    ok := fs.Attempt();
    if !ok { return; }
    ghost var t := fs.Now();
    ok := fs.Attempt();
    fs.PassedAgain(old(fs.Now()), t, fs.Now());
  }

  /** Writes, flushes and closes a freshly created file, whatever fails on the way. */
  method Fill(fs: FileSystem, f: int, payload: Data) returns (ok: bool)
    requires fs.Valid() && f in fs.files && fs.files[f] in fs.book.made && fs.files[f] !in fs.book.gone
    modifies fs`tick, fs`entries, fs`foreign, fs`disturbances, fs`ours, fs`files, fs`lost, fs`planted, fs`book
    ensures fs.Valid() && fs.book == old(fs.book) && fs.files == old(fs.files) - {f}
    ensures var k := old(fs.files)[f];
            && fs.Confined({k}, {}, old(fs.Now()), fs.Now())
            && (ok && k in fs.ours ==> fs.ours[k] == payload)
    ensures fs.Smooth(old(fs.Now()), fs.Now()) ==> ok
    ensures ok <==> AllWorked(fs.script, old(fs.tick), fs.tick)
    ensures fs.Placid() ==> fs.disturbances == old(fs.disturbances)
  {
    hide FileSystem.Valid, FileSystem.Confined, FileSystem.Tame, FileSystem.Placid;
    ghost var k, s := fs.files[f], fs.Now();
    ok := Twice(fs); // fchmod, fdopen
    fs.ConfinedAnyway(k, {}, s, fs.Now());
    ghost var t := fs.Now();
    if ok {
      ok := fs.Write(f, payload);
      fs.NothingThen({k}, {}, s, t, fs.Now());
    }
    t := fs.Now();
    if ok {
      ok := Twice(fs); // flush, fsync
      fs.ThenNothing({k}, {}, s, t, fs.Now());
      Remains(fs, k, {}, {}, t, fs.Now());
    }
    t := fs.Now();
    var closed := fs.CloseFile(f);
    fs.ThenNothing({k}, {}, s, t, fs.Now());
    Remains(fs, k, {}, {}, t, fs.Now());
    ok := ok && closed;
  }

  /** What is still ours has kept its content. */
  lemma Remains(fs: FileSystem, k: Key, e: set<Key>, f: set<Key>, s: State, t: State)
    requires fs.Confined(e, f, s, t) && k !in e
    ensures k in t.ours ==> k in s.ours && t.ours[k] == s.ours[k]
  {
  }

  /** Stages one payload in a temporary next to its destination. The temporary is reported
      as soon as it exists, whether or not it could be filled. */
  method Stage(fs: FileSystem, d: Destination, payload: Data, ghost avoid: set<Key>)
    returns (fault: Option<Code>, staged: Option<string>)
    requires fs.Valid() && Held(d, fs.open)
    modifies fs`tick, fs`entries, fs`foreign, fs`disturbances, fs`ours, fs`files, fs`next, fs`lost, fs`planted, fs`book
    ensures fs.Valid() && fs.files == old(fs.files)
    ensures staged == None ==> fault.Some? && fs.Confined({}, {}, old(fs.Now()), fs.Now()) && fs.book == old(fs.book)
    ensures staged.Some? ==>
      var k := (d.directory, staged.value);
      && Drawn(fs.script, d, k, fs.tick) && fs.Confined({k}, {}, old(fs.Now()), fs.Now()) && fs.book == Created(old(fs.book), {k})
      && (k in fs.ours || k in fs.lost) && (k in old(fs.ours) ==> k in fs.lost)
      && (fault == None && k in fs.ours ==> fs.ours[k] == payload)
      && (fs.disturbances == old(fs.disturbances) ==> k !in avoid)
    ensures fs.Fair({}, old(fs.Now()), fs.Now()) ==>
      (fault == None <==> AtHome(fs, d)) && (fault == None ==> (d.directory, staged.value) in fs.entries)
    ensures fs.Placid() && (d.directory, fs.Temporary(d.name)) !in old(fs.entries) && (d.directory, fs.Temporary(d.name)) !in avoid ==>
      fs.disturbances == old(fs.disturbances) && (staged.Some? ==> staged.value == fs.Temporary(d.name))
  {
    hide FileSystem.Valid, FileSystem.Confined, FileSystem.Tame, FileSystem.AheadOf, FileSystem.Placid, Drawn, HomeSeen;
    ghost var s := fs.Now();
    var same := ParentUnchanged(fs, d);
    if !same { return Some(OutputParentChanged), None; }
    ghost var t := fs.Now();
    var status := CreateTemporary(fs, d, avoid);
    fs.PlacidNames(s, t);
    if !status.Fresh? {
      fs.NothingThen({}, {}, s, t, fs.Now());
      if fs.Fair({}, s, fs.Now()) { fs.FairParts({}, {}, {}, s, t, fs.Now()); }
      return Some(OutputWriteFailed), None;
    }
    ghost var k, u := (d.directory, status.name), fs.Now();
    fs.NothingThen({k}, {}, s, t, u);
    fs.OnlyLost(k, s, t);
    staged := Some(status.name);
    var ok := Fill(fs, status.descriptor, payload);
    fs.ThenSame({k}, s, u, fs.Now());
    DrawnLater(fs.script, d, k, u.tick, fs.tick);
    fs.OursOrLost(k);
    if fs.Fair({}, s, fs.Now()) {
      fs.FairParts({}, {k}, {}, s, u, fs.Now());
      fs.FairNames({}, {k}, {}, u, fs.Now(), k);
    }
    assert fs.files == old(fs.files);
    fault := if ok then None else Some(OutputWriteFailed);
  }

  // ---------------------------------------------------------------- the publication

  /** A name in the directory of a destination. */
  type Entry = (Destination, string)

  function KeyAt(e: Entry): Key {
    (e.0.directory, e.1)
  }

  function Keys(es: seq<Entry>): set<Key> {
    set e | e in es :: KeyAt(e)
  }

  lemma KeysOfTwo(e: Entry, f: Entry)
    ensures Keys([e]) == {KeyAt(e)} && Keys([e, f]) == {KeyAt(e), KeyAt(f)} && Keys([]) == {}
  {
    assert e in [e, f] && f in [e, f] && e in [e];
  }

  lemma NoKeys()
    ensures Keys([]) == {}
  {
  }

  predicate KeysDiffer(es: seq<Entry>) {
    forall i, j :: 0 <= i < j < |es| ==> KeyAt(es[i]) != KeyAt(es[j])
  }

  predicate AllHeld(es: seq<Entry>, open: map<int, int>) {
    forall i :: 0 <= i < |es| ==> Held(es[i].0, open)
  }

  /** Neither temporary hits an entry or the other destination. */
  ghost predicate TemporariesFree(fs: FileSystem, a: Key, b: Key, entries: map<Key, Data>) {
    var t, u := (a.0, fs.Temporary(a.1)), (b.0, fs.Temporary(b.1));
    t !in entries && u !in entries && t != b && u != a
  }

  lemma DrawnDiffer(script: nat -> Answer, d: Destination, k: Key, m: nat, d': Destination, k': Key, n: nat)
    requires Drawn(script, d, k, m) && Drawn(script, d', k', n) && Slot(d) != Slot(d')
    ensures k != k' && k != Slot(d)
  {
    var i: nat :| i < m && k.1 == TemporaryName(d.name, script(i).token);
    var j: nat :| j < n && k'.1 == TemporaryName(d'.name, script(j).token);
    TemporariesDiffer(Slot(d), Slot(d'), script(i).token, script(j).token);
  }

  lemma FirstTemporariesDiffer(fs: FileSystem, a: Key, b: Key)
    requires a != b
    ensures (a.0, fs.Temporary(a.1)) != (b.0, fs.Temporary(b.1))
    ensures (a.0, fs.Temporary(a.1)) != a && (b.0, fs.Temporary(b.1)) != b
  {
    TemporariesDiffer(a, b, fs.script(0).token, fs.script(0).token);
    TemporariesDiffer(b, a, fs.script(0).token, fs.script(0).token);
  }

  /** The temporary is there with its payload, unless others took it. */
  ghost predicate Filled(ours: map<Key, Data>, k: Key, payload: Data) {
    k in ours ==> ours[k] == payload
  }

  /** Both payloads in temporaries. */
  method StageBoth(fs: FileSystem, ds: seq<Destination>, p: Data, q: Data) returns (fault: Option<Code>, staged: seq<Entry>)
    requires fs.Valid() && |ds| == 2 && Held(ds[0], fs.open) && Held(ds[1], fs.open) && Slot(ds[0]) != Slot(ds[1])
    modifies fs`tick, fs`entries, fs`foreign, fs`disturbances, fs`ours, fs`files, fs`next, fs`lost, fs`planted, fs`book
    ensures fs.Valid() && fs.files == old(fs.files)
    ensures |staged| <= 2 && KeysDiffer(staged) && fs.book == Created(old(fs.book), Keys(staged))
    ensures forall i :: 0 <= i < |staged| ==> staged[i].0 == ds[i] && Drawn(fs.script, ds[i], KeyAt(staged[i]), fs.tick)
    ensures fs.Confined(Keys(staged), {}, old(fs.Now()), fs.Now())
    ensures fault == None ==> |staged| == 2 && Filled(fs.ours, KeyAt(staged[0]), p) && Filled(fs.ours, KeyAt(staged[1]), q)
    ensures fs.disturbances == old(fs.disturbances) ==> Keys(staged) !! {Slot(ds[0]), Slot(ds[1])}
    ensures fs.Fair({}, old(fs.Now()), fs.Now()) ==>
      && (fault == None <==> AtHome(fs, ds[0]) && AtHome(fs, ds[1]))
      && (fault == None ==> KeyAt(staged[0]) in fs.entries && KeyAt(staged[1]) in fs.entries)
    ensures fs.Placid() && TemporariesFree(fs, Slot(ds[0]), Slot(ds[1]), old(fs.entries)) ==> fs.disturbances == old(fs.disturbances)
  {
    hide FileSystem.Valid, FileSystem.Confined, FileSystem.Tame, FileSystem.AheadOf, FileSystem.Placid, FileSystem.Temporary,
      FileSystem.Fair, Drawn, AtHome, Created, Keys;
    ghost var avoid, s := {Slot(ds[0]), Slot(ds[1])}, fs.Now();
    FirstTemporariesDiffer(fs, Slot(ds[0]), Slot(ds[1]));
    var first, second: Option<string>;
    fault, first := Stage(fs, ds[0], p, avoid);
    if first == None {
      staged := [];
      NoKeys();
      CreatedMore(old(fs.book), {}, {});
      return;
    }
    ghost var k, t := (ds[0].directory, first.value), fs.Now();
    staged := [(ds[0], first.value)];
    KeysOfTwo(staged[0], staged[0]);
    if fault.Some? { return; }
    CalmNames(fs, {k}, {}, s, t);
    fault, second := Stage(fs, ds[1], q, avoid);
    ghost var e := if second.Some? then {(ds[1].directory, second.value)} else {};
    fs.ThenMore({k}, e, s, t, fs.Now());
    DrawnLater(fs.script, ds[0], k, t.tick, fs.tick);
    if fs.Fair({}, s, fs.Now()) { StagedFairly(fs, k, e, s, t, fs.Now()); }
    if second == None {
      fs.ThenNothing({k}, {}, s, t, fs.Now());
      return;
    }
    ghost var l := (ds[1].directory, second.value);
    staged := [staged[0], (ds[1], second.value)];
    KeysOfTwo(staged[0], staged[1]);
    DrawnDiffer(fs.script, ds[0], k, fs.tick, ds[1], l, fs.tick);
    assert {k} + {l} == {k, l};
    CreatedMore(old(fs.book), {k}, {l});
    Remains(fs, k, {l}, {}, t, fs.Now());
  }

  lemma StagedFairly(fs: FileSystem, k: Key, e: set<Key>, s: State, t: State, u: State)
    requires fs.Confined({k}, {}, s, t) && fs.Confined(e, {}, t, u) && fs.Fair({}, s, u)
    ensures fs.Fair({}, s, t) && fs.Fair({}, t, u) && (k in t.entries ==> k in u.entries)
  {
    fs.Then({k}, {}, e, {}, s, t, u);
    fs.FairParts({}, {k}, {}, s, t, u);
    fs.FairNames({}, e, {}, t, u, k);
  }

  lemma CalmNames(fs: FileSystem, e: set<Key>, f: set<Key>, s: State, t: State)
    requires fs.Confined(e, f, s, t)
    ensures s.disturbances == t.disturbances ==> t.entries.Keys <= s.entries.Keys + e
  {
  }

  /** What a link of this source to this destination says, made since the state s: unless
      others had replaced the source, it published what the source held then. */
  ghost predicate LinkedFrom(l: Linking, source: Key, d: Destination, s: State, ours: map<Key, Data>) {
    && l.source == source && l.target == Slot(d) && s.tick <= l.at && Filled(ours, Slot(d), l.data)
    && (!l.replaced ==> source in s.ours && l.data == s.ours[source])
  }

  /** This link was made after a look that found the parent in place. */
  ghost predicate LookedBefore(fs: FileSystem, d: Destination, l: Linking) {
    l.at >= 2 && HomeSeen(fs, d, l.at - 2)
  }

  /** And before another one. */
  ghost predicate Watched(fs: FileSystem, d: Destination, l: Linking) {
    LookedBefore(fs, d, l) && HomeSeen(fs, d, l.at + 1)
  }

  method LinkInto(fs: FileSystem, source: Entry, d: Destination) returns (fault: Option<Code>, created: bool, ghost l: Linking)
    requires fs.Valid() && Held(d, fs.open) && Held(source.0, fs.open)
    requires KeyAt(source) in fs.book.made && KeyAt(source) !in fs.book.gone
    modifies fs`tick, fs`entries, fs`foreign, fs`disturbances, fs`ours, fs`lost, fs`planted, fs`book
    ensures fs.Valid() && (fault == None ==> created)
    ensures !created ==> fs.Confined({}, {}, old(fs.Now()), fs.Now()) && fs.book == old(fs.book)
    ensures created ==>
      && fs.Confined({Slot(d)}, {Slot(d)}, old(fs.Now()), fs.Now()) && fs.book == Linked(old(fs.book), [l])
      && LinkedFrom(l, KeyAt(source), d, old(fs.Now()), fs.ours)
      && (Slot(d) in old(fs.book.made) && Slot(d) !in old(fs.book.gone) ==> Slot(d) in fs.lost)
      && LookedBefore(fs, d, l) && (fault == None <==> Watched(fs, d, l)) && (fault.Some? ==> fault == Some(OutputParentChanged))
    ensures !created ==> fault == Some(if HomeSeen(fs, d, old(fs.tick)) then OutputWriteFailed else OutputParentChanged)
    ensures fs.Fair({d.name}, old(fs.Now()), fs.Now()) && KeyAt(source) in old(fs.entries) ==>
      (fault == None <==> Slot(d) !in old(fs.entries) && AtHome(fs, d))
    ensures fs.Placid() ==> fs.disturbances == old(fs.disturbances)
  {
    hide FileSystem.Valid, FileSystem.Confined, FileSystem.Tame, FileSystem.AheadOf, FileSystem.Plain, FileSystem.Placid, FileSystem.Fair,
      Linked, HomeSeen, AtHome, LookedBefore, Watched;
    ghost var s, k, names := fs.Now(), Slot(d), {d.name};
    created, l := false, Linking(KeyAt(source), k, 0, [], false);
    var same := ParentUnchanged(fs, d);
    FairIsSmooth(fs, names, s, fs.Now());
    if !same { return Some(OutputParentChanged), false, l; }
    ghost var t := fs.Now();
    created, l := fs.Link(source.0.descriptor, source.1, d.descriptor, d.name);
    ghost var u, e := fs.Now(), if created then {k} else {};
    fs.NothingThen(e, e, s, t, u);
    Remains(fs, KeyAt(source), {}, {}, s, t);
    if !created {
      if fs.Fair(names, s, u) { LinkedFairly(fs, names, e, KeyAt(source), k, s, t, u, u); }
      return Some(OutputWriteFailed), false, l;
    }
    same := ParentUnchanged(fs, d);
    Looks(fs, d, l, s.tick);
    fs.ThenNothing(e, e, s, u, fs.Now());
    Remains(fs, k, {}, {}, u, fs.Now());
    if fs.Fair(names, s, fs.Now()) { LinkedFairly(fs, names, e, KeyAt(source), k, s, t, u, fs.Now()); }
    fault := if same then None else Some(OutputParentChanged);
  }

  lemma Looks(fs: FileSystem, d: Destination, l: Linking, at: nat)
    requires l.at == at + 2 && HomeSeen(fs, d, at)
    ensures LookedBefore(fs, d, l) && (Watched(fs, d, l) <==> HomeSeen(fs, d, at + 3))
  {
  }

  lemma FairIsSmooth(fs: FileSystem, names: set<string>, s: State, t: State)
    ensures fs.Fair(names, s, t) ==> fs.Smooth(s, t)
  {
  }

  lemma LinkedFairly(fs: FileSystem, names: set<string>, e: set<Key>, source: Key, k: Key, s: State, t: State, u: State, v: State)
    requires fs.Confined({}, {}, s, t) && fs.Confined(e, e, t, u) && Later(t, u) && Later(u, v) && fs.Fair(names, s, v)
    requires e <= {k} && names == {k.1}
    ensures fs.Fair(names, s, t) && fs.Fair(names, t, u) && fs.Smooth(s, t) && fs.Smooth(u, v)
    ensures source in s.entries ==> source in t.entries
    ensures k in t.entries <==> k in s.entries
  {
    hide FileSystem.Confined;
    fs.FairParts(names, {}, {}, s, t, v);
    fs.FairParts(names, e, e, t, u, v);
    fs.FairNames(names, {}, {}, s, t, source);
    fs.FairNames(names, {}, {}, s, t, k);
  }

  /** The second link publishes what its temporary held, unless others had replaced that,
      or had taken it and its name was the first destination. */
  ghost predicate SecondLinked(l: Linking, source: Key, ds: seq<Destination>, s: State, ours: map<Key, Data>, lost: set<Key>)
    requires |ds| == 2
  {
    && l.source == source && l.target == Slot(ds[1]) && s.tick <= l.at && Filled(ours, Slot(ds[1]), l.data)
    && (!l.replaced ==> (source in s.ours && l.data == s.ours[source]) || (source == Slot(ds[0]) && source in lost))
  }

  /** The first of the destinations themselves, as entries. */
  predicate SlotsOf(created: seq<Entry>, ds: seq<Destination>) {
    |created| <= |ds| && forall i :: 0 <= i < |created| ==> created[i] == (ds[i], ds[i].name)
  }

  method LinkBoth(fs: FileSystem, staged: seq<Entry>, ds: seq<Destination>)
    returns (fault: Option<Code>, created: seq<Entry>, ghost links: seq<Linking>)
    requires fs.Valid() && |ds| == |staged| == 2 && Held(ds[0], fs.open) && Held(ds[1], fs.open)
    requires staged[0].0 == ds[0] && staged[1].0 == ds[1] && Slot(ds[0]) != Slot(ds[1])
    requires Keys(staged) <= fs.book.made && Keys(staged) !! fs.book.gone
    modifies fs`tick, fs`entries, fs`foreign, fs`disturbances, fs`ours, fs`lost, fs`planted, fs`book
    ensures fs.Valid()
    ensures |created| == |links| && SlotsOf(created, ds)
    ensures Targets(links) == Keys(created) && fs.book == Linked(old(fs.book), links)
    ensures forall k :: k in Keys(created) && k in old(fs.book.made) && k !in old(fs.book.gone) ==> k in fs.lost
    ensures fs.Confined(Keys(created), Keys(created), old(fs.Now()), fs.Now())
    ensures |links| >= 1 ==> LinkedFrom(links[0], KeyAt(staged[0]), ds[0], old(fs.Now()), fs.ours)
    ensures |links| == 2 ==> SecondLinked(links[1], KeyAt(staged[1]), ds, old(fs.Now()), fs.ours, fs.lost)
    ensures fault == None ==> |created| == 2
    ensures (|links| >= 1 ==> LookedBefore(fs, ds[0], links[0])) && (|links| == 2 ==> LookedBefore(fs, ds[1], links[1]))
    ensures fault == None ==> Watched(fs, ds[0], links[0]) && Watched(fs, ds[1], links[1])
    ensures fs.Fair({ds[0].name, ds[1].name}, old(fs.Now()), fs.Now()) && Keys(staged) <= old(fs.entries.Keys) ==>
      (fault == None <==> Slot(ds[0]) !in old(fs.entries) && Slot(ds[1]) !in old(fs.entries) && AtHome(fs, ds[0]) && AtHome(fs, ds[1]))
    ensures fs.Placid() ==> fs.disturbances == old(fs.disturbances)
  {
    hide FileSystem.Valid, FileSystem.Confined, FileSystem.Tame, FileSystem.AheadOf, FileSystem.Plain, FileSystem.Placid, FileSystem.Fair,
      Linked, Targets, Keys, AtHome, HomeSeen, LookedBefore, Watched;
    ghost var s, names, a, b := fs.Now(), {ds[0].name, ds[1].name}, Slot(ds[0]), Slot(ds[1]);
    assert staged == [staged[0], staged[1]];
    KeysOfTwo(staged[0], staged[1]);
    KeysOfTwo((ds[0], ds[0].name), (ds[1], ds[1].name));
    NoKeys();
    var first, second;
    ghost var l, m;
    fault, first, l := LinkInto(fs, staged[0], ds[0]);
    LinkedMore(old(fs.book), l, l);
    ghost var t := fs.Now();
    if fs.Fair(names, s, t) { FewerNames(fs, names, ds[0].name, s, t); }
    if !first {
      created, links := [], [];
      return;
    }
    created, links := [(ds[0], ds[0].name)], [l];
    if fault.Some? { return; }
    fault, second, m := LinkInto(fs, staged[1], ds[1]);
    ghost var e, u := if second then {b} else {}, fs.Now();
    fs.Then({a}, {a}, e, e, s, t, u);
    if fs.Fair(names, s, u) { BothLinkedFairly(fs, names, ds, e, KeyAt(staged[1]), s, t, u); }
    Remains(fs, a, e, e, t, u);
    if !second {
      assert {a} + {} == {a};
      return;
    }
    assert {a} + {b} == {a, b};
    created, links := [created[0], (ds[1], ds[1].name)], [l, m];
    LinkedMore(old(fs.book), l, m);
    if KeyAt(staged[1]) != a { Remains(fs, KeyAt(staged[1]), {a}, {a}, s, t); }
  }

  lemma FewerNames(fs: FileSystem, names: set<string>, name: string, s: State, t: State)
    requires fs.Fair(names, s, t) && name in names
    ensures fs.Fair({name}, s, t)
  {
  }

  lemma BothLinkedFairly(fs: FileSystem, names: set<string>, ds: seq<Destination>, e: set<Key>, source: Key, s: State, t: State, u: State)
    requires |ds| == 2 && Slot(ds[0]) != Slot(ds[1]) && names == {ds[0].name, ds[1].name}
    requires fs.Confined({Slot(ds[0])}, {Slot(ds[0])}, s, t) && Later(t, u) && fs.Fair(names, s, u)
    ensures fs.Fair({ds[0].name}, s, t) && fs.Fair({ds[1].name}, t, u)
    ensures source in s.entries ==> source in t.entries
    ensures Slot(ds[1]) in t.entries <==> Slot(ds[1]) in s.entries
  {
    hide FileSystem.Confined;
    var a := {Slot(ds[0])};
    fs.FairParts(names, a, a, s, t, u);
    fs.FairNames(names, a, a, s, t, source);
    fs.FairNames(names, a, a, s, t, Slot(ds[1]));
    FewerNames(fs, names, ds[0].name, s, t);
    FewerNames(fs, names, ds[1].name, t, u);
  }

  /** One unlink for each of these entries, in order and from this time on. */
  ghost predicate Follows(us: seq<Unlink>, es: seq<Entry>, tick: nat) {
    |us| == |es| && forall i :: 0 <= i < |us| ==> us[i].key == KeyAt(es[i]) && tick <= us[i].at
  }

  lemma FollowsMore(us: seq<Unlink>, es: seq<Entry>, i: nat, tick: nat, u: Unlink)
    requires i < |es| && Follows(us, es[..i], tick) && u.key == KeyAt(es[i]) && tick <= u.at
    ensures Follows(us + [u], es[..i + 1], tick)
    ensures Keys(es[..i + 1]) == Keys(es[..i]) + {KeyAt(es[i])}
  {
    assert es[..i + 1] == es[..i] + [es[i]];
  }

  lemma FollowsNone(es: seq<Entry>, tick: nat)
    ensures Follows([], es[..0], tick) && Keys(es[..0]) == {}
  {
  }

  /** The next key is still to be unlinked. */
  lemma NextKey(b: Book, us: seq<Unlink>, es: seq<Entry>, i: nat, tick: nat)
    requires i < |es| && KeysDiffer(es) && Follows(us, es[..i], tick)
    ensures KeyAt(es[i]) in Unlinked(b, us).gone ==> KeyAt(es[i]) in b.gone
    ensures Unlinked(b, us).made == b.made
  {
    forall u | u in us ensures u.key != KeyAt(es[i]) {
      var j :| 0 <= j < |us| && us[j] == u;
      assert us[j].key == KeyAt(es[..i][j]);
    }
  }

  /** These may be unlinked: names this program made, and removed at most if others took
      them before. */
  ghost predicate Removable(b: Book, lost: set<Key>, es: seq<Entry>) {
    KeysDiffer(es) && forall i :: 0 <= i < |es| ==> KeyAt(es[i]) in b.made && (KeyAt(es[i]) in b.gone ==> KeyAt(es[i]) in lost)
  }

  /** What is left of ours after these unlinks, if others took nothing. */
  lemma OursAfter(script: nat -> Answer, b: Book, s: State, us: seq<Unlink>, t: State)
    requires Sound(script, b, s) && Sound(script, Unlinked(b, us), t) && t.ours.Keys <= s.ours.Keys
    ensures t.lost == {} ==> t.ours.Keys == s.ours.Keys - Worked(us)
  {
    hide Consistent, TakenBefore, LogSound, Worked;
  }

  method UnlinkAll(fs: FileSystem, es: seq<Entry>) returns (ghost us: seq<Unlink>)
    requires fs.Valid() && AllHeld(es, fs.open) && Removable(fs.book, fs.lost, es)
    modifies fs`tick, fs`entries, fs`foreign, fs`disturbances, fs`ours, fs`lost, fs`planted, fs`book, fs`harmed, fs`unlinkFailed
    ensures fs.Valid() && fs.Cleared(Keys(es), old(fs.Now()), fs.Now())
    ensures Follows(us, es, old(fs.tick)) && fs.book == Unlinked(old(fs.book), us)
    ensures fs.lost == {} ==> fs.ours.Keys == old(fs.ours.Keys) - Worked(us)
    ensures fs.Placid() ==> fs.disturbances == old(fs.disturbances)
  {
    hide FileSystem.Valid, FileSystem.Cleared, FileSystem.Placid, Sound, Keys, KeysDiffer, Follows, Unlinked, Worked;
    us := [];
    ghost var s, b := fs.Now(), fs.book;
    FollowsNone(es, s.tick);
    ClearedNothing(fs);
    BooksAreSound(fs);
    UnlinkedMore(b, [], Unlink((0, ""), 0, true, false));
    for i := 0 to |es|
      invariant fs.Valid() && fs.Cleared(Keys(es[..i]), s, fs.Now()) && s.lost <= fs.lost
      invariant Follows(us, es[..i], s.tick) && fs.book == Unlinked(b, us)
      invariant fs.Placid() ==> fs.disturbances == s.disturbances
    {
      ghost var t := fs.Now();
      NextKey(b, us, es, i, s.tick);
      ghost var u := fs.SafeUnlink(es[i].0.descriptor, es[i].1);
      fs.ClearedAgain(Keys(es[..i]), {KeyAt(es[i])}, s, t, fs.Now());
      FollowsMore(us, es, i, s.tick, u);
      UnlinkedMore(b, us, u);
      us := us + [u];
    }
    assert es[..|es|] == es;
    BooksAreSound(fs);
    Fewer(fs, Keys(es), s, fs.Now());
    OursAfter(fs.script, b, s, us, fs.Now());
  }

  lemma BooksAreSound(fs: FileSystem)
    requires fs.Valid()
    ensures Sound(fs.script, fs.book, fs.Now())
    ensures fs.harmed <==> Harms(fs.book.unlinks)
    ensures fs.unlinkFailed <==> Fails(fs.book.unlinks)
  {
  }

  lemma Fewer(fs: FileSystem, e: set<Key>, s: State, t: State)
    requires fs.Cleared(e, s, t)
    ensures t.ours.Keys <= s.ours.Keys
  {
  }

  lemma ClearedNothing(fs: FileSystem)
    ensures fs.Cleared({}, fs.Now(), fs.Now())
  {
  }

  // ---------------------------------------------------------------- what is still to be undone

  ghost function KeysOf(us: seq<Unlink>): set<Key> {
    set u | u in us :: u.key
  }

  /** No key is unlinked twice, unless others took what was there. */
  ghost predicate Once(us: seq<Unlink>, lost: set<Key>) {
    forall i, j :: 0 <= i < j < |us| && us[i].key == us[j].key ==> us[i].key in lost
  }

  /** Everything this program made was unlinked or is in one of these lists, and in one
      place only unless others took it. */
  ghost predicate Progress(b: Book, lost: set<Key>, staged: seq<Entry>, created: seq<Entry>) {
    && KeysDiffer(staged) && KeysDiffer(created) && Keys(created) * Keys(staged) <= lost
    && b.made == Keys(staged) + Keys(created) + KeysOf(b.unlinks) && b.gone == Worked(b.unlinks)
    && Once(b.unlinks, lost) && (Keys(staged) + Keys(created)) * KeysOf(b.unlinks) <= lost
  }

  lemma Begun(b: Book, lost: set<Key>, staged: seq<Entry>, created: seq<Entry>)
    requires b.unlinks == [] && b.gone == {} && b.made == Keys(staged) + Keys(created)
    requires KeysDiffer(staged) && KeysDiffer(created) && Keys(created) * Keys(staged) <= lost
    ensures Progress(b, lost, staged, created)
  {
    hide KeysDiffer, Keys;
  }

  lemma Swapped(b: Book, lost: set<Key>, es: seq<Entry>, rest: seq<Entry>)
    requires Progress(b, lost, es, rest)
    ensures Progress(b, lost, rest, es)
  {
    hide KeysDiffer, Keys, Once, KeysOf, Worked;
  }

  lemma StillInProgress(b: Book, lost: set<Key>, lost': set<Key>, staged: seq<Entry>, created: seq<Entry>)
    requires Progress(b, lost, staged, created) && lost <= lost'
    ensures Progress(b, lost', staged, created)
  {
    hide KeysDiffer, Keys, KeysOf, Worked;
  }

  lemma KeysFollow(us: seq<Unlink>, es: seq<Entry>, tick: nat)
    requires Follows(us, es, tick)
    ensures KeysOf(us) == Keys(es)
    ensures forall i :: 0 <= i < |us| ==> us[i].key in Keys(es)
    ensures KeysDiffer(es) ==> forall i, j :: 0 <= i < j < |us| ==> us[i].key != us[j].key
  {
    forall k ensures k in KeysOf(us) <==> k in Keys(es) {
      if k in KeysOf(us) {
        var i :| 0 <= i < |us| && us[i].key == k;
        assert es[i] in es;
      }
      if k in Keys(es) {
        var i :| 0 <= i < |es| && KeyAt(es[i]) == k;
        assert us[i] in us;
      }
    }
    forall i | 0 <= i < |us| ensures us[i].key in Keys(es) {
      assert us[i] in us;
    }
  }

  lemma LogsAdd(us: seq<Unlink>, vs: seq<Unlink>)
    ensures KeysOf(us + vs) == KeysOf(us) + KeysOf(vs) && Worked(us + vs) == Worked(us) + Worked(vs)
    ensures Fails(us + vs) <==> Fails(us) || Fails(vs)
    ensures forall i :: 0 <= i < |us| ==> us[i].key in KeysOf(us)
  {
    assert forall u :: u in us + vs <==> u in us || u in vs;
  }

  lemma OnceMore(us: seq<Unlink>, vs: seq<Unlink>, lost: set<Key>)
    requires Once(us, lost) && KeysOf(us) * KeysOf(vs) <= lost
    requires forall i, j :: 0 <= i < j < |vs| ==> vs[i].key != vs[j].key
    ensures Once(us + vs, lost)
  {
    var all := us + vs;
    forall i, j | 0 <= i < j < |all| && all[i].key == all[j].key ensures all[i].key in lost {
      if i < |us| <= j {
        assert us[i] in us && vs[j - |us|] in vs;
        assert all[i].key in KeysOf(us) * KeysOf(vs);
      }
    }
  }

  lemma ProgressMore(b: Book, lost: set<Key>, es: seq<Entry>, rest: seq<Entry>, us: seq<Unlink>, tick: nat)
    requires Progress(b, lost, es, rest) && Follows(us, es, tick)
    ensures Progress(Unlinked(b, us), lost, [], rest)
  {
    hide Worked, KeysOf, Once, Keys, KeysDiffer, Follows;
    NoKeys();
    NoneDiffer();
    KeysFollow(us, es, tick);
    LogsAdd(b.unlinks, us);
    OnceMore(b.unlinks, us, lost);
  }

  lemma NoneDiffer()
    ensures KeysDiffer([])
  {
  }

  lemma ProgressRemovable(b: Book, lost: set<Key>, es: seq<Entry>, rest: seq<Entry>)
    requires Progress(b, lost, es, rest)
    ensures Removable(b, lost, es)
  {
    forall i | 0 <= i < |es| ensures KeyAt(es[i]) in b.made && (KeyAt(es[i]) in b.gone ==> KeyAt(es[i]) in lost) {
      assert es[i] in es && KeyAt(es[i]) in Keys(es);
      if KeyAt(es[i]) in Worked(b.unlinks) {
        assert KeyAt(es[i]) in KeysOf(b.unlinks);
        assert KeyAt(es[i]) in (Keys(es) + Keys(rest)) * KeysOf(b.unlinks);
      }
    }
  }

  /** If others took nothing, what has been undone is gone exactly if no unlink failed. */
  lemma AllUndone(script: nat -> Answer, b: Book, s: State)
    requires Sound(script, b, s) && Progress(b, s.lost, [], [])
    ensures b.made == KeysOf(b.unlinks)
    ensures s.lost == {} ==> (!Fails(b.unlinks) <==> s.ours == map[])
  {
    NoKeys();
    if s.lost == {} {
      WorkedUnlessFailed(b.unlinks);
      hide Once, TakenBefore, LogSound, Consistent, Worked, KeysOf, Fails;
      assert s.ours.Keys == b.made - b.gone;
    }
  }

  lemma WorkedUnlessFailed(us: seq<Unlink>)
    requires Once(us, {})
    ensures Worked(us) <= KeysOf(us) && (!Fails(us) <==> Worked(us) == KeysOf(us))
  {
    if Fails(us) {
      var i :| 0 <= i < |us| && !us[i].works;
      assert us[i].key in KeysOf(us);
    } else {
      forall k | k in KeysOf(us) ensures k in Worked(us) {
        var u :| u in us && u.key == k;
      }
    }
  }

  /** All of these names are in the directories of the destinations. */
  predicate Named(staged: seq<Entry>, created: seq<Entry>, ds: seq<Destination>) {
    forall e :: e in staged + created ==> e.0 in ds
  }

  /** Undoes what has been made so far. */
  method Undo(fs: FileSystem, created: seq<Entry>, staged: seq<Entry>, ghost ds: seq<Destination>)
    requires fs.Valid() && Progress(fs.book, fs.lost, staged, created)
    requires Named(staged, created, ds) && forall d :: d in ds ==> Held(d, fs.open)
    modifies fs`tick, fs`entries, fs`foreign, fs`disturbances, fs`ours, fs`lost, fs`planted, fs`book, fs`harmed, fs`unlinkFailed
    ensures fs.Valid() && fs.Onward(old(fs.Now()), fs.Now())
    ensures Progress(fs.book, fs.lost, [], [])
    ensures fs.Placid() ==> fs.disturbances == old(fs.disturbances)
  {
    hide FileSystem.Valid, FileSystem.Cleared, FileSystem.Onward, FileSystem.Placid, Progress, Removable, Follows, Unlinked, Keys;
    ghost var s := fs.Now();
    Swapped(fs.book, fs.lost, staged, created);
    ProgressRemovable(fs.book, fs.lost, created, staged);
    ghost var b := fs.book;
    ghost var us := UnlinkAll(fs, created);
    ghost var t := fs.Now();
    fs.ClearedOnward(Keys(created), s, t);
    StillInProgress(b, s.lost, t.lost, created, staged);
    ProgressMore(b, t.lost, created, staged, us, s.tick);
    Swapped(fs.book, fs.lost, [], staged);
    ProgressRemovable(fs.book, fs.lost, staged, []);
    ghost var vs := UnlinkAll(fs, staged);
    fs.ClearedOnward(Keys(staged), t, fs.Now());
    fs.OnwardAgain(s, t, fs.Now());
    StillInProgress(Unlinked(b, us), t.lost, fs.lost, staged, []);
    ProgressMore(Unlinked(b, us), fs.lost, staged, [], vs, t.tick);
  }

  // ---------------------------------------------------------------- success

  /** Both destinations hold their payloads, and something else of ours is left exactly if
      an unlink failed. */
  ghost predicate BothWritten(ours: map<Key, Data>, ds: seq<Destination>, p: Data, q: Data, failed: bool) {
    && |ds| == 2 && Slot(ds[0]) != Slot(ds[1]) && Slot(ds[0]) in ours && Slot(ds[1]) in ours
    && ours[Slot(ds[0])] == p && ours[Slot(ds[1])] == q
    && (!failed <==> ours == map[Slot(ds[0]) := p, Slot(ds[1]) := q])
  }

  /** What was linked to the destination is there, unless others took it. */
  ghost predicate Output(d: Destination, l: Linking, ours: map<Key, Data>, lost: set<Key>) {
    l.target == Slot(d) && (Slot(d) in lost || (Slot(d) in ours && ours[Slot(d)] == l.data))
  }

  /** The temporary was linked and later unlinked. */
  ghost predicate FromTemporary(script: nat -> Answer, d: Destination, l: Linking, u: Unlink) {
    u.key == l.source && Drawn(script, d, l.source, l.at) && Drawn(script, d, u.key, u.at)
  }

  /** Both destinations were linked from their temporaries, and these unlinked. An output
      is its payload, unless others had replaced the temporary; or unless they had taken it
      and its name was the other destination. */
  ghost predicate Published(script: nat -> Answer, b: Book, ours: map<Key, Data>, lost: set<Key>, ds: seq<Destination>, p: Data, q: Data) {
    && |ds| == |b.links| == |b.unlinks| == 2 && Slot(ds[0]) != Slot(ds[1])
    && (forall i :: 0 <= i < 2 ==> FromTemporary(script, ds[i], b.links[i], b.unlinks[i]) && Output(ds[i], b.links[i], ours, lost))
    && (!b.links[0].replaced ==> b.links[0].data == p)
    && (!b.links[1].replaced ==> b.links[1].data == q || (b.links[1].source == Slot(ds[0]) && b.links[1].source in lost))
  }

  /** If others took nothing, a publication leaves the payloads. */
  lemma PublishedIsWritten(script: nat -> Answer, b: Book, s: State, ds: seq<Destination>, created: seq<Entry>, p: Data, q: Data)
    requires Sound(script, b, s) && Published(script, b, s.ours, s.lost, ds, p, q) && Progress(b, s.lost, [], created)
    requires |ds| == |created| == 2 && created[0] == (ds[0], ds[0].name) && created[1] == (ds[1], ds[1].name)
    ensures s.lost == {} ==> BothWritten(s.ours, ds, p, q, Fails(b.unlinks))
  {
    NoKeys();
    assert created == [created[0], created[1]];
    KeysOfTwo(created[0], created[1]);
    hide LogSound, Published, FromTemporary, Worked, KeysOf, Keys, Fails, Consistent, TakenBefore, Accounted;
    if s.lost == {} {
      PayloadsThere(script, b, s, ds, p, q);
      WorkedUnlessFailed(b.unlinks);
      TwoLeft(b, s, Slot(ds[0]), Slot(ds[1]));
      TwoEntries(s.ours, Slot(ds[0]), Slot(ds[1]));
    }
  }

  lemma TwoLeft(b: Book, s: State, k: Key, l: Key)
    requires Accounted(b, s) && s.lost == {} && b.made == {k, l} + KeysOf(b.unlinks) && b.gone == Worked(b.unlinks)
    requires {k, l} * KeysOf(b.unlinks) == {} && Worked(b.unlinks) <= KeysOf(b.unlinks)
    ensures s.ours.Keys == {k, l} <==> Worked(b.unlinks) == KeysOf(b.unlinks)
  {
    hide Worked, KeysOf;
    assert s.ours.Keys == b.made - b.gone;
  }

  lemma TwoEntries(m: map<Key, Data>, k: Key, l: Key)
    requires k in m && l in m
    ensures m == map[k := m[k], l := m[l]] <==> m.Keys == {k, l}
  {
  }

  lemma PayloadsThere(script: nat -> Answer, b: Book, s: State, ds: seq<Destination>, p: Data, q: Data)
    requires LogSound(script, b, s) && Published(script, b, s.ours, s.lost, ds, p, q) && s.lost == {}
    ensures |ds| == 2 && Slot(ds[0]) != Slot(ds[1]) && Slot(ds[0]) in s.ours && Slot(ds[1]) in s.ours
    ensures s.ours[Slot(ds[0])] == p && s.ours[Slot(ds[1])] == q
  {
    hide FromTemporary, UnlinkSound;
    assert LinkSound(script, b.links[0], s) && LinkSound(script, b.links[1], s);
  }

  /** After these unlinks a look found the parent in place. */
  ghost predicate SeenAfter(fs: FileSystem, d: Destination, us: seq<Unlink>) {
    exists n: nat :: HomeSeen(fs, d, n) && forall u :: u in us ==> u.at < n
  }

  /** Both links were made between two looks that found the parent in place, and so did a
      look at the end. */
  ghost predicate Guarded(fs: FileSystem, ds: seq<Destination>)
    reads fs
  {
    && |ds| == |fs.book.links| == 2 && Watched(fs, ds[0], fs.book.links[0]) && Watched(fs, ds[1], fs.book.links[1])
    && SeenAfter(fs, ds[0], fs.book.unlinks) && SeenAfter(fs, ds[1], fs.book.unlinks)
  }

  lemma UnlinkedBefore(fs: FileSystem, b: Book, us: seq<Unlink>)
    requires fs.Valid() && fs.book == Unlinked(b, us)
    ensures forall u :: u in us ==> u.at < fs.tick
  {
    forall u | u in us ensures u.at < fs.tick {
      assert u in fs.book.unlinks;
      assert UnlinkSound(fs.script, u, fs.Now());
    }
  }

  /** Removes the temporaries once both links are made, and looks at both parents again. */
  method Conclude(fs: FileSystem, ds: seq<Destination>, staged: seq<Entry>) returns (fault: Option<Code>, ghost us: seq<Unlink>)
    requires fs.Valid() && |ds| == |staged| == 2 && staged[0].0 == ds[0] && staged[1].0 == ds[1]
    requires Held(ds[0], fs.open) && Held(ds[1], fs.open) && Removable(fs.book, fs.lost, staged)
    modifies fs`tick, fs`entries, fs`foreign, fs`disturbances, fs`ours, fs`lost, fs`planted, fs`book, fs`harmed, fs`unlinkFailed
    ensures fs.Valid() && fs.Cleared(Keys(staged), old(fs.Now()), fs.Now())
    ensures Follows(us, staged, old(fs.tick)) && fs.book == Unlinked(old(fs.book), us)
    ensures fs.Smooth(old(fs.Now()), fs.Now()) ==> (fault == None <==> AtHome(fs, ds[0]) && AtHome(fs, ds[1]))
    ensures fault == None ==> SeenAfter(fs, ds[0], us) && SeenAfter(fs, ds[1], us)
    ensures fault.Some? ==> fault == Some(OutputParentChanged)
    ensures fs.Placid() ==> fs.disturbances == old(fs.disturbances)
  {
    hide FileSystem.Valid, FileSystem.Cleared, FileSystem.Confined, FileSystem.Placid, FileSystem.Tame, Removable, Follows, Unlinked, Keys, AtHome;
    ghost var s := fs.Now();
    ghost var b := fs.book;
    us := UnlinkAll(fs, staged);
    UnlinkedBefore(fs, b, us);
    ghost var t := fs.Now();
    var same := ParentUnchanged(fs, ds[0]);
    fs.ClearedThen(Keys(staged), s, t, fs.Now());
    if same {
      t := fs.Now();
      same := ParentUnchanged(fs, ds[1]);
      fs.ClearedThen(Keys(staged), s, t, fs.Now());
    }
    fault := if same then None else Some(OutputParentChanged);
  }

  /** What has been linked is there at the end, unless others took it. */
  lemma OutputStays(fs: FileSystem, e: set<Key>, d: Destination, l: Linking, s: State, t: State, staged: seq<Entry>, created: seq<Entry>)
    requires fs.Cleared(e, s, t) && Filled(s.ours, Slot(d), l.data) && l.target == Slot(d)
    requires Accounted(fs.book, t) && Progress(fs.book, t.lost, staged, created) && Slot(d) in Keys(created)
    ensures Output(d, l, t.ours, t.lost)
  {
    var k := Slot(d);
    assert k in fs.book.made;
    if k in fs.book.gone {
      assert k in KeysOf(fs.book.unlinks);
      assert k in (Keys(staged) + Keys(created)) * KeysOf(fs.book.unlinks);
    }
  }

  /** The first links, and how they came about. */
  ghost predicate BothLinkedFrom(links: seq<Linking>, temporaries: seq<Entry>, ds: seq<Destination>, s: State, ours: map<Key, Data>, lost: set<Key>)
    requires |ds| == |temporaries| == 2
  {
    && |links| == 2 && LinkedFrom(links[0], KeyAt(temporaries[0]), ds[0], s, ours)
    && SecondLinked(links[1], KeyAt(temporaries[1]), ds, s, ours, lost)
  }

  lemma ConcludedIsPublished(fs: FileSystem, ds: seq<Destination>, temporaries: seq<Entry>, created: seq<Entry>,
                             s: State, t: State, p: Data, q: Data)
    requires |ds| == |temporaries| == |created| == 2 && Slot(ds[0]) != Slot(ds[1])
    requires created[0] == (ds[0], ds[0].name) && created[1] == (ds[1], ds[1].name)
    requires Drawn(fs.script, ds[0], KeyAt(temporaries[0]), s.tick) && Drawn(fs.script, ds[1], KeyAt(temporaries[1]), s.tick)
    requires Filled(s.ours, KeyAt(temporaries[0]), p) && Filled(s.ours, KeyAt(temporaries[1]), q)
    requires BothLinkedFrom(fs.book.links, temporaries, ds, s, t.ours, t.lost) && s.tick <= t.tick
    requires Follows(fs.book.unlinks, temporaries, t.tick) && fs.Cleared(Keys(temporaries), t, fs.Now())
    requires Accounted(fs.book, fs.Now()) && Progress(fs.book, fs.lost, [], created)
    ensures Published(fs.script, fs.book, fs.ours, fs.lost, ds, p, q)
  {
    hide Drawn, FileSystem.Cleared, Accounted, Progress, Keys;
    fs.ClearedOnward(Keys(temporaries), t, fs.Now());
    assert created == [created[0], created[1]];
    KeysOfTwo(created[0], created[1]);
    var ls, us := fs.book.links, fs.book.unlinks;
    forall i | 0 <= i < 2 ensures FromTemporary(fs.script, ds[i], ls[i], us[i]) && Output(ds[i], ls[i], fs.ours, fs.lost) {
      DrawnLater(fs.script, ds[i], ls[i].source, s.tick, ls[i].at);
      DrawnLater(fs.script, ds[i], ls[i].source, s.tick, us[i].at);
      OutputStays(fs, Keys(temporaries), ds[i], ls[i], t, fs.Now(), [], created);
    }
  }

  /** Links two staged payloads into place, then removes the temporaries. */
  method LinkAndConclude(fs: FileSystem, ds: seq<Destination>, temporaries: seq<Entry>, p: Data, q: Data)
    returns (fault: Option<Code>, staged: seq<Entry>, created: seq<Entry>)
    requires fs.Valid() && |ds| == |temporaries| == 2 && Held(ds[0], fs.open) && Held(ds[1], fs.open) && Slot(ds[0]) != Slot(ds[1])
    requires temporaries[0].0 == ds[0] && temporaries[1].0 == ds[1] && KeysDiffer(temporaries)
    requires Drawn(fs.script, ds[0], KeyAt(temporaries[0]), fs.tick) && Drawn(fs.script, ds[1], KeyAt(temporaries[1]), fs.tick)
    requires Filled(fs.ours, KeyAt(temporaries[0]), p) && Filled(fs.ours, KeyAt(temporaries[1]), q)
    requires fs.book == Book(Keys(temporaries), {}, [], [])
    modifies fs`tick, fs`entries, fs`foreign, fs`disturbances, fs`ours, fs`lost, fs`planted, fs`book, fs`harmed, fs`unlinkFailed
    ensures fs.Valid() && fs.Onward(old(fs.Now()), fs.Now())
    ensures Progress(fs.book, fs.lost, staged, created) && Named(staged, created, ds)
    ensures fault == None ==> staged == [] && |created| == 2 && SlotsOf(created, ds) && Published(fs.script, fs.book, fs.ours, fs.lost, ds, p, q)
    ensures fault == None ==> Guarded(fs, ds)
    ensures fs.Fair({ds[0].name, ds[1].name}, old(fs.Now()), fs.Now()) && Keys(temporaries) <= old(fs.entries.Keys) ==>
      (fault == None <==> Slot(ds[0]) !in old(fs.entries) && Slot(ds[1]) !in old(fs.entries) && AtHome(fs, ds[0]) && AtHome(fs, ds[1]))
    ensures fs.Placid() ==> fs.disturbances == old(fs.disturbances)
  {
    hide FileSystem.Valid, FileSystem.Cleared, FileSystem.Confined, FileSystem.Onward, FileSystem.Placid, FileSystem.Tame, FileSystem.Fair,
      Removable, Follows, Unlinked, Keys, AtHome, Drawn, Progress, Published, Linked, LinkedFrom, SecondLinked, Sound;
    ghost var s, b, names := fs.Now(), fs.book, {ds[0].name, ds[1].name};
    staged := temporaries;
    ghost var links;
    fault, created, links := LinkBoth(fs, staged, ds);
    ghost var t, b' := fs.Now(), fs.book;
    LinkedBegun(fs.book, fs.lost, staged, created, links, ds);
    fs.ConfinedOnward(Keys(created), Keys(created), s, t);
    if fault.Some? { return; }
    ProgressRemovable(fs.book, fs.lost, staged, created);
    ghost var us;
    fault, us := Conclude(fs, ds, staged);
    fs.ClearedOnward(Keys(staged), t, fs.Now());
    fs.OnwardAgain(s, t, fs.Now());
    if fs.Fair(names, s, fs.Now()) { CreatedFairly(fs, names, created, ds, s, t, fs.Now()); }
    StillInProgress(b', t.lost, fs.lost, staged, created);
    ProgressMore(b', fs.lost, staged, created, us, t.tick);
    UnlinksOnly(b', us);
    BooksAreSound(fs);
    ConcludedIsPublished(fs, ds, temporaries, created, s, t, p, q);
    staged := [];
  }

  lemma LinkedBegun(b: Book, lost: set<Key>, staged: seq<Entry>, created: seq<Entry>, links: seq<Linking>, ds: seq<Destination>)
    requires b == Linked(Book(Keys(staged), {}, [], []), links) && Targets(links) == Keys(created)
    requires |ds| == |staged| == 2 && Slot(ds[0]) != Slot(ds[1]) && SlotsOf(created, ds) && KeysDiffer(staged)
    requires staged[0].0 == ds[0] && staged[1].0 == ds[1]
    requires forall k :: k in Keys(created) && k in Keys(staged) ==> k in lost
    ensures Progress(b, lost, staged, created) && Named(staged, created, ds)
    ensures b.links == links && b.unlinks == []
  {
    Begun(b, lost, staged, created);
  }

  lemma CreatedFairly(fs: FileSystem, names: set<string>, created: seq<Entry>, ds: seq<Destination>, s: State, t: State, u: State)
    requires |ds| == 2 && names == {ds[0].name, ds[1].name} && SlotsOf(created, ds)
    requires fs.Confined(Keys(created), Keys(created), s, t) && Later(t, u) && fs.Fair(names, s, u)
    ensures fs.Fair(names, s, t) && fs.Smooth(t, u)
  {
    hide FileSystem.Confined, FileSystem.Fair, FileSystem.Smooth;
    SlotNames(created, ds);
    fs.FairParts(names, Keys(created), Keys(created), s, t, u);
  }

  lemma SlotNames(created: seq<Entry>, ds: seq<Destination>)
    requires |ds| == 2 && SlotsOf(created, ds)
    ensures forall k :: k in Keys(created) ==> k.1 in {ds[0].name, ds[1].name}
  {
  }

  lemma UnlinksOnly(b: Book, us: seq<Unlink>)
    requires b.unlinks == []
    ensures Unlinked(b, us).unlinks == us && Unlinked(b, us).links == b.links
  {
  }

  lemma FreshBook(staged: seq<Entry>)
    ensures Created(Book({}, {}, [], []), Keys(staged)) == Book(Keys(staged), {}, [], [])
  {
  }

  lemma StagedBegun(lost: set<Key>, staged: seq<Entry>, ds: seq<Destination>)
    requires KeysDiffer(staged) && |staged| <= |ds| && forall i :: 0 <= i < |staged| ==> staged[i].0 == ds[i]
    ensures Progress(Book(Keys(staged), {}, [], []), lost, staged, []) && Named(staged, [], ds)
  {
    NoKeys();
    Begun(Book(Keys(staged), {}, [], []), lost, staged, []);
  }

  /** Staging does not hinder linking. */
  lemma StagingIsFair(fs: FileSystem, names: set<string>, ds: seq<Destination>, e: set<Key>, s: State, t: State, u: State)
    requires |ds| == 2 && names == {ds[0].name, ds[1].name} && fs.Confined(e, {}, s, t) && Later(t, u) && fs.Fair(names, s, u)
    requires s.disturbances == t.disturbances ==> e !! {Slot(ds[0]), Slot(ds[1])}
    ensures fs.Fair({}, s, t) && fs.Fair(names, t, u)
    ensures forall d :: d in ds ==> (Slot(d) in t.entries <==> Slot(d) in s.entries)
  {
    hide FileSystem.Confined;
    fs.FairParts(names, e, {}, s, t, u);
    fs.FairNames(names, e, {}, s, t, Slot(ds[0]));
    fs.FairNames(names, e, {}, s, t, Slot(ds[1]));
  }

  /** Stages, links and concludes for two resolved destinations. */
  method StageAndLink(fs: FileSystem, ds: seq<Destination>, p: Data, q: Data)
    returns (fault: Option<Code>, staged: seq<Entry>, created: seq<Entry>)
    requires fs.Valid() && fs.book == Book({}, {}, [], [])
    requires |ds| == 2 && Held(ds[0], fs.open) && Held(ds[1], fs.open) && Slot(ds[0]) != Slot(ds[1])
    modifies fs`tick, fs`entries, fs`foreign, fs`disturbances, fs`ours, fs`files, fs`next, fs`lost, fs`planted, fs`book,
      fs`harmed, fs`unlinkFailed
    ensures fs.Valid() && fs.Onward(old(fs.Now()), fs.Now()) && fs.files == old(fs.files)
    ensures Progress(fs.book, fs.lost, staged, created) && Named(staged, created, ds)
    ensures fault == None ==>
      staged == [] && |created| == 2 && SlotsOf(created, ds) && Published(fs.script, fs.book, fs.ours, fs.lost, ds, p, q)
    ensures fault == None ==> Guarded(fs, ds)
    ensures fs.Fair({ds[0].name, ds[1].name}, old(fs.Now()), fs.Now()) ==>
      (fault == None <==> Slot(ds[0]) !in old(fs.entries) && Slot(ds[1]) !in old(fs.entries) && AtHome(fs, ds[0]) && AtHome(fs, ds[1]))
    ensures fs.Placid() && TemporariesFree(fs, Slot(ds[0]), Slot(ds[1]), old(fs.entries)) ==> fs.disturbances == old(fs.disturbances)
  {
    hide FileSystem.Valid, FileSystem.Cleared, FileSystem.Confined, FileSystem.Onward, FileSystem.Placid, FileSystem.Tame, FileSystem.Fair,
      Keys, KeysDiffer, AtHome, Drawn, Progress, Published, Created, TemporariesFree;
    ghost var s, names := fs.Now(), {ds[0].name, ds[1].name};
    created := [];
    fault, staged := StageBoth(fs, ds, p, q);
    ghost var t := fs.Now();
    FreshBook(staged);
    StagedBegun(fs.lost, staged, ds);
    fs.ConfinedOnward(Keys(staged), {}, s, t);
    if fs.Fair(names, s, t) { StagingIsFair(fs, names, ds, Keys(staged), s, t, t); }
    if fault.Some? { return; }
    assert staged == [staged[0], staged[1]];
    KeysOfTwo(staged[0], staged[1]);
    ghost var e := Keys(staged);
    fault, staged, created := LinkAndConclude(fs, ds, staged, p, q);
    fs.OnwardAgain(s, t, fs.Now());
    if fs.Fair(names, s, fs.Now()) { StagingIsFair(fs, names, ds, e, s, t, fs.Now()); }
  }

  // ---------------------------------------------------------------- both outputs

  /** The descriptors that were opened for these destinations, on top of those before. */
  ghost predicate OpenedFor(ds: seq<Destination>, before: map<int, int>, now: map<int, int>) {
    && |ds| <= 2
    && (ds == [] ==> now == before)
    && (|ds| == 1 ==> ds[0].descriptor !in before && now == before[ds[0].descriptor := ds[0].directory])
    && (|ds| == 2 ==>
          && ds[0].descriptor !in before && ds[1].descriptor !in before && ds[0].descriptor != ds[1].descriptor
          && now == before[ds[0].descriptor := ds[0].directory][ds[1].descriptor := ds[1].directory])
  }

  /** Two usable, free and different destinations. */
  ghost predicate WellPosed(fs: FileSystem, first: Path, second: Path, entries: map<Key, Data>) {
    && Usable(fs, first) && Usable(fs, second)
    && KeyOf(fs, first) !in entries && KeyOf(fs, second) !in entries && KeyOf(fs, first) != KeyOf(fs, second)
  }

  method ResolveBoth(fs: FileSystem, first: Path, second: Path) returns (fault: Option<Code>, ds: seq<Destination>)
    requires fs.Valid()
    modifies fs`tick, fs`entries, fs`foreign, fs`disturbances, fs`open, fs`next, fs`ours, fs`lost, fs`planted
    ensures fs.Valid() && fs.Passed(old(fs.Now()), fs.Now()) && OpenedFor(ds, old(fs.open), fs.open)
    ensures fault == None ==> |ds| == 2 && ds[0].name == first.name && ds[1].name == second.name && Slot(ds[0]) != Slot(ds[1])
    ensures fs.Fair({first.name, second.name}, old(fs.Now()), fs.Now()) ==>
      && (fault == None <==> WellPosed(fs, first, second, old(fs.entries)))
      && (fault == None ==> Slot(ds[0]) == KeyOf(fs, first) && Slot(ds[1]) == KeyOf(fs, second) && AtHome(fs, ds[0]) && AtHome(fs, ds[1]))
  {
    hide FileSystem.Valid, FileSystem.Confined, FileSystem.Placid, FileSystem.Tame, FileSystem.Fair;
    ds := [];
    ghost var s, names := fs.Now(), {first.name, second.name};
    var a := ResolveDestination(fs, first);
    ghost var t := fs.Now();
    if fs.Fair(names, s, t) { FewerNames(fs, names, first.name, s, t); }
    if a.Err? { return Some(a.error), ds; }
    ds := [a.value];
    var b := ResolveDestination(fs, second);
    fs.PassedAgain(s, t, fs.Now());
    if fs.Fair(names, s, fs.Now()) { ResolvedFairly(fs, names, first, second, s, t, fs.Now()); }
    if b.Err? { return Some(b.error), ds; }
    ds := [a.value, b.value];
    fault := if Slot(ds[0]) == Slot(ds[1]) then Some(OutputPathCollision) else None;
  }

  lemma ResolvedFairly(fs: FileSystem, names: set<string>, first: Path, second: Path, s: State, t: State, u: State)
    requires fs.Confined({}, {}, s, t) && Later(t, u) && fs.Fair(names, s, u) && names == {first.name, second.name}
    ensures fs.Fair({first.name}, s, t) && fs.Fair({second.name}, t, u)
    ensures Usable(fs, second) ==> (KeyOf(fs, second) in t.entries <==> KeyOf(fs, second) in s.entries)
  {
    hide FileSystem.Confined;
    fs.FairParts(names, {}, {}, s, t, u);
    FewerNames(fs, names, first.name, s, t);
    FewerNames(fs, names, second.name, t, u);
    if Usable(fs, second) { fs.FairNames(names, {}, {}, s, t, KeyOf(fs, second)); }
  }

  /** If there is a place for both outputs, there is one for both temporaries. */
  ghost predicate NamesFree(fs: FileSystem, first: Path, second: Path, entries: map<Key, Data>) {
    WellPosed(fs, first, second, entries) ==> TemporariesFree(fs, KeyOf(fs, first), KeyOf(fs, second), entries)
  }

  /** The guarded part: reports what has been made so far, however it ends. */
  method Publish(fs: FileSystem, first: Path, second: Path, p: Data, q: Data)
    returns (fault: Option<Code>, ds: seq<Destination>, staged: seq<Entry>, created: seq<Entry>)
    requires fs.Valid() && fs.book == Book({}, {}, [], [])
    modifies fs
    ensures fs.Valid() && fs.Onward(old(fs.Now()), fs.Now())
    ensures fs.files == old(fs.files) && OpenedFor(ds, old(fs.open), fs.open)
    ensures Progress(fs.book, fs.lost, staged, created) && Named(staged, created, ds)
    ensures fault == None ==>
      && staged == [] && |created| == |ds| == 2 && SlotsOf(created, ds) && ds[0].name == first.name && ds[1].name == second.name
      && Published(fs.script, fs.book, fs.ours, fs.lost, ds, p, q) && Guarded(fs, ds)
    ensures fs.Fair({first.name, second.name}, old(fs.Now()), fs.Now()) ==>
      && (fault == None <==> WellPosed(fs, first, second, old(fs.entries)))
      && (fault == None ==> Slot(ds[0]) == KeyOf(fs, first) && Slot(ds[1]) == KeyOf(fs, second))
    ensures fs.Placid() && NamesFree(fs, first, second, old(fs.entries)) ==> fs.disturbances == old(fs.disturbances)
  {
    hide FileSystem.Valid, FileSystem.Confined, FileSystem.Onward, FileSystem.Placid, FileSystem.Tame, FileSystem.Fair,
      OpenedFor, Progress, Published, Usable, AtHome, WellPosed, TemporariesFree;
    ghost var s, names := fs.Now(), {first.name, second.name};
    staged, created := [], [];
    fault, ds := ResolveBoth(fs, first, second);
    ghost var t := fs.Now();
    fs.ConfinedOnward({}, {}, s, t);
    NoKeys();
    StagedBegun(fs.lost, [], ds);
    if fault.Some? { return; }
    BothHeld(ds, old(fs.open), fs.open);
    fs.PlacidNames(s, t);
    if fs.Placid() && NamesFree(fs, first, second, s.entries) { PlacesFree(fs, names, first, second, ds, s, t); }
    fault, staged, created := StageAndLink(fs, ds, p, q);
    fs.OnwardAgain(s, t, fs.Now());
    if fs.Fair(names, s, fs.Now()) { PublishedFairly(fs, names, first, second, ds, s, t, fs.Now()); }
  }

  lemma BothHeld(ds: seq<Destination>, before: map<int, int>, now: map<int, int>)
    requires OpenedFor(ds, before, now)
    ensures forall d :: d in ds ==> Held(d, now)
  {
  }

  lemma PlacesFree(fs: FileSystem, names: set<string>, first: Path, second: Path, ds: seq<Destination>, s: State, t: State)
    requires |ds| == 2 && NamesFree(fs, first, second, s.entries) && t.disturbances == s.disturbances && t.entries.Keys == s.entries.Keys
    requires fs.Fair(names, s, t) ==>
      WellPosed(fs, first, second, s.entries) && Slot(ds[0]) == KeyOf(fs, first) && Slot(ds[1]) == KeyOf(fs, second)
    ensures TemporariesFree(fs, Slot(ds[0]), Slot(ds[1]), t.entries)
  {
  }

  lemma PublishedFairly(fs: FileSystem, names: set<string>, first: Path, second: Path, ds: seq<Destination>, s: State, t: State, u: State)
    requires |ds| == 2 && names == {first.name, second.name} && ds[0].name == first.name && ds[1].name == second.name
    requires fs.Confined({}, {}, s, t) && Later(t, u) && fs.Fair(names, s, u)
    requires fs.Fair(names, s, t) ==>
      && WellPosed(fs, first, second, s.entries)
      && Slot(ds[0]) == KeyOf(fs, first) && Slot(ds[1]) == KeyOf(fs, second) && AtHome(fs, ds[0]) && AtHome(fs, ds[1])
    ensures fs.Fair(names, s, t) && fs.Fair(names, t, u)
    ensures Slot(ds[0]) !in t.entries && Slot(ds[1]) !in t.entries && AtHome(fs, ds[0]) && AtHome(fs, ds[1])
  {
    hide FileSystem.Confined;
    fs.FairParts(names, {}, {}, s, t, u);
    fs.FairNames(names, {}, {}, s, t, Slot(ds[0]));
    fs.FairNames(names, {}, {}, s, t, Slot(ds[1]));
  }

  method CloseAll(fs: FileSystem, ds: seq<Destination>, ghost before: map<int, int>)
    requires fs.Valid() && OpenedFor(ds, before, fs.open)
    modifies fs`tick, fs`entries, fs`foreign, fs`disturbances, fs`open, fs`ours, fs`lost, fs`planted
    ensures fs.Valid() && fs.Passed(old(fs.Now()), fs.Now()) && fs.open == before
  {
    hide FileSystem.Valid, FileSystem.Passed;
    fs.PassedNothing(fs.Now());
    if |ds| >= 1 { fs.CloseDirectory(ds[0].descriptor); }
    if |ds| >= 2 {
      ghost var t := fs.Now();
      fs.CloseDirectory(ds[1].descriptor);
      fs.PassedAgain(old(fs.Now()), t, fs.Now());
    }
  }

  lemma NothingOfOurs(s: State)
    requires Consistent(s) && s.ours == map[]
    ensures s.entries == s.foreign
  {
  }

  /** The log of unlinks tells whether one failed and whether one did harm. */
  lemma LogTells(fs: FileSystem)
    requires fs.Valid()
    ensures fs.harmed <==> Harms(fs.book.unlinks)
    ensures fs.harmed ==> fs.lost != {}
    ensures forall u :: u in fs.book.unlinks ==> UnlinkSound(fs.script, u, fs.Now())
    ensures forall l :: l in fs.book.links ==> LinkSound(fs.script, l, fs.Now())
    ensures fs.UnlinksWork() ==> !fs.unlinkFailed
    ensures fs.UnlinksFail() && fs.book.unlinks != [] ==> fs.unlinkFailed
  {
    if fs.UnlinksFail() && fs.book.unlinks != [] {
      assert UnlinkSound(fs.script, fs.book.unlinks[0], fs.Now());
      assert fs.book.unlinks[0] in fs.book.unlinks;
    }
    if fs.unlinkFailed {
      var u :| u in fs.book.unlinks && !u.works;
      assert UnlinkSound(fs.script, u, fs.Now());
    }
    if fs.harmed {
      var u :| u in fs.book.unlinks && u.works && u.replaced;
      assert UnlinkSound(fs.script, u, fs.Now());
    }
  }

  lemma PublishedStays(fs: FileSystem, ds: seq<Destination>, p: Data, q: Data, s: State)
    requires Published(fs.script, fs.book, s.ours, s.lost, ds, p, q) && fs.Confined({}, {}, s, fs.Now())
    ensures Published(fs.script, fs.book, fs.ours, fs.lost, ds, p, q)
  {
    hide FromTemporary;
  }

  lemma OnlyOutputsAndTemporaries(b: Book, lost: set<Key>, ds: seq<Destination>, created: seq<Entry>)
    requires Progress(b, lost, [], created) && |ds| == |created| == 2 && SlotsOf(created, ds)
    ensures b.made == {Slot(ds[0]), Slot(ds[1])} + KeysOf(b.unlinks)
  {
    NoKeys();
    assert created == [created[0], created[1]];
    KeysOfTwo(created[0], created[1]);
    hide Once, Keys, KeysOf, Worked;
  }

  lemma SparedByAll(fs: FileSystem, s: State, t: State)
    requires fs.Onward(s, t) && Consistent(s) && s.ours == map[] && s.lost == {}
    ensures fs.Steady() ==> t.lost == {} && Extends(s.entries, t.foreign)
    ensures t.disturbances == s.disturbances ==> t.lost == {} && t.foreign == s.entries
  {
    NothingOfOurs(s);
  }

  /** Both outputs or neither. Whatever fails or changes on the way, every descriptor is
      closed once. An entry of others is removed exactly if a working unlink meets one that
      they put in place of an entry of this program. Success leaves what was linked from
      the two temporaries, and without losses to others the two payloads, and nothing else
      exactly if no unlink failed; after failure, everything this program made was
      unlinked, and without losses nothing is left exactly if no unlink failed. Without any
      disturbance, whether or not unlinks fail, and also with others that only replace
      temporaries, it succeeds exactly for two usable, free, different destinations. */
  method WriteOutputs(fs: FileSystem, first: Path, second: Path, p: Data, q: Data)
    returns (fault: Option<Code>, ghost ds: seq<Destination>)
    requires fs.Valid() && fs.Starting()
    modifies fs
    ensures fs.Valid() && fs.open == old(fs.open) && fs.files == old(fs.files)
    ensures fs.harmed <==> Harms(fs.book.unlinks)
    ensures forall u :: u in fs.book.unlinks ==> UnlinkSound(fs.script, u, fs.Now())
    ensures fs.harmed ==> fs.lost != {}
    ensures fs.Steady() ==> fs.lost == {} && Extends(old(fs.entries), fs.foreign)
    ensures fault == None ==>
      && |ds| == 2 && ds[0].name == first.name && ds[1].name == second.name
      && Published(fs.script, fs.book, fs.ours, fs.lost, ds, p, q) && Guarded(fs, ds)
      && fs.book.made == {Slot(ds[0]), Slot(ds[1])} + KeysOf(fs.book.unlinks)
    ensures forall l :: l in fs.book.links ==> LinkSound(fs.script, l, fs.Now())
    ensures fault == None && fs.lost == {} ==> BothWritten(fs.ours, ds, p, q, fs.unlinkFailed)
    ensures fault.Some? ==> fs.book.made == KeysOf(fs.book.unlinks)
    ensures fault.Some? && fs.lost == {} ==> (!fs.unlinkFailed <==> fs.ours == map[]) && (!fs.unlinkFailed ==> fs.entries == fs.foreign)
    ensures fs.UnlinksWork() ==> !fs.unlinkFailed
    ensures fs.UnlinksFail() && fault == None ==> fs.unlinkFailed
    ensures fs.disturbances == old(fs.disturbances) ==> fs.foreign == old(fs.entries) && fs.lost == {}
    ensures fs.Fair({first.name, second.name}, old(fs.Now()), fs.Now()) ==>
      && (fault == None <==> WellPosed(fs, first, second, old(fs.entries)))
      && (fault == None ==> Slot(ds[0]) == KeyOf(fs, first) && Slot(ds[1]) == KeyOf(fs, second))
    ensures fs.Placid() && NamesFree(fs, first, second, old(fs.entries)) ==> fs.disturbances == old(fs.disturbances)
  {
    hide FileSystem.Valid, FileSystem.Confined, FileSystem.Onward, FileSystem.Placid, FileSystem.Tame, FileSystem.Ahead, FileSystem.Plain,
      FileSystem.UnlinksWork, FileSystem.UnlinksFail, FileSystem.Steady, Sound, Harms, Fails, Extends, KeysOf, UnlinkSound, LinkSound,
      OpenedFor, Progress, Published, BothWritten, Usable, KeyOf, Held, Named, WellPosed, NamesFree;
    BooksAreSound(fs);
    ghost var s := fs.Now();
    var destinations, staged, created;
    fault, destinations, staged, created := Publish(fs, first, second, p, q);
    ds := destinations;
    ghost var t := fs.Now();
    fs.OnwardNothing(t);
    if fault.Some? {
      BothHeld(ds, old(fs.open), fs.open);
      Undo(fs, created, staged, destinations);
      staged, created := [], [];
    }
    ghost var u := fs.Now();
    CloseAll(fs, destinations, old(fs.open));
    ghost var v := fs.Now();
    BooksAreSound(fs);
    fs.ConfinedOnward({}, {}, u, v);
    fs.OnwardAgain(t, u, v);
    fs.OnwardAgain(s, t, v);
    StillInProgress(fs.book, u.lost, v.lost, staged, created);
    LogTells(fs);
    SparedAtLast(fs, s, v);
    if fs.Fair({first.name, second.name}, s, v) { FairBefore(fs, {first.name, second.name}, s, t, v); }
    if fault.Some? {
      AllUndone(fs.script, fs.book, v);
      NothingLeft(fs, v);
    } else {
      PublishedStays(fs, ds, p, q, u);
      OnlyOutputsAndTemporaries(fs.book, v.lost, ds, created);
      PublishedIsWritten(fs.script, fs.book, v, ds, created, p, q);
      SomethingUnlinked(fs, ds, p, q);
    }
  }

  lemma SparedAtLast(fs: FileSystem, s: State, t: State)
    requires fs.Onward(s, t) && Sound(fs.script, Book({}, {}, [], []), s) && s.ours == map[] && s.lost == {}
    ensures fs.Steady() ==> t.lost == {} && Extends(s.entries, t.foreign)
    ensures t.disturbances == s.disturbances ==> t.lost == {} && t.foreign == s.entries
  {
    SparedByAll(fs, s, t);
  }

  lemma NothingLeft(fs: FileSystem, s: State)
    requires Sound(fs.script, fs.book, s)
    ensures s.ours == map[] ==> s.entries == s.foreign
  {
    if s.ours == map[] { NothingOfOurs(s); }
  }

  lemma SomethingUnlinked(fs: FileSystem, ds: seq<Destination>, p: Data, q: Data)
    requires Published(fs.script, fs.book, fs.ours, fs.lost, ds, p, q)
    ensures fs.book.unlinks != []
  {
  }

  lemma FairBefore(fs: FileSystem, names: set<string>, s: State, t: State, u: State)
    requires Later(s, t) && Later(t, u) && fs.Fair(names, s, u)
    ensures fs.Fair(names, s, t)
  {
  }

  // ---------------------------------------------------------------- two directories

  lemma EmptyIsWellPosed(fs: FileSystem)
    requires fs.places("/out") == Directory(1)
    ensures var first, second := Path(true, "/out", "a", false), Path(true, "/out", "b", false);
            && Usable(fs, first) && Usable(fs, second) && KeyOf(fs, first) == (1, "a") && KeyOf(fs, second) == (1, "b")
            && WellPosed(fs, first, second, map[])
  {
    assert "a"[0] != "b"[0];
  }

  /** In an empty directory where only unlinks fail, the publication of any two payloads
      reports success and leaves a temporary behind. */
  method LeavesTemporaryBehind(p: Data, q: Data) returns (fs: FileSystem, fault: Option<Code>, ghost ds: seq<Destination>)
    ensures fresh(fs) && fs.Valid() && fs.Placid() && fs.UnlinksFail()
    ensures fault == None && BothWritten(fs.ours, ds, p, q, true)
    ensures exists k :: k in fs.ours && k in fs.entries && k !in {Slot(ds[0]), Slot(ds[1])}
  {
    hide FileSystem.Valid, Published, Harms, UnlinkSound, LinkSound, KeysOf, WellPosed, Usable, KeyOf, Sound, Extends;
    var script := (n: nat) => Answer(false, true, None, {}, map[], "0", 0);
    fs := new FileSystem(script, (parent: string) => Directory(1), map[]);
    var first, second := Path(true, "/out", "a", false), Path(true, "/out", "b", false);
    EmptyIsWellPosed(fs);
    assert |fs.Temporary("a")| > 1 && |fs.Temporary("b")| > 1;
    assert NamesFree(fs, first, second, map[]);
    fault, ds := WriteOutputs(fs, first, second, p, q);
    BooksAreSound(fs);
    SomethingElse(fs.Now(), ds, p, q);
  }

  lemma SomethingElse(s: State, ds: seq<Destination>, p: Data, q: Data)
    requires Consistent(s) && BothWritten(s.ours, ds, p, q, true)
    ensures exists k :: k in s.ours && k in s.entries && k !in {Slot(ds[0]), Slot(ds[1])}
  {
    var both := map[Slot(ds[0]) := p, Slot(ds[1]) := q];
    assert both.Keys == {Slot(ds[0]), Slot(ds[1])};
    assert s.ours.Keys <= both.Keys ==> s.ours == both;
    var k :| k in s.ours && k !in both;
    assert k in s.entries;
  }

  function Marks(n: nat): (t: Token)
    ensures |t| == n
  {
    if n == 0 then "" else Marks(n - 1) + "x"
  }

  /** The names of all temporaries that may have been made before the n-th call. */
  function NamesBefore(n: nat): set<Key> {
    set m: nat, name | m < n && name in ["a", "b"] :: (1, TemporaryName(name, Marks(m)))
  }

  /** Nothing fails, and before each call others replace every temporary. */
  function Replacing(n: nat, theirs: Data): Answer {
    Answer(false, false, None, NamesBefore(n), map k | k in NamesBefore(n) :: theirs, Marks(n), 0)
  }

  lemma ReplacingIsTame(fs: FileSystem, theirs: Data)
    requires forall n: nat :: fs.script(n) == Replacing(n, theirs)
    ensures fs.Tame() && fs.Plain("a") && fs.Plain("b") && fs.UnlinksWork()
  {
    forall n: nat ensures fs.OnlyEarlier(n) {
      forall k | k in fs.script(n).added ensures exists m: nat :: m < n && Carries(k.1, fs.script(m).token) {
        var m: nat, name :| m < n && name in ["a", "b"] && k == (1, TemporaryName(name, Marks(m)));
        CarriesItsToken(name, Marks(m));
        assert Carries(k.1, fs.script(m).token);
      }
    }
    forall m: nat, n: nat | m != n ensures fs.script(m).token != fs.script(n).token {
      assert |Marks(m)| != |Marks(n)|;
    }
  }

  /** What a drawn temporary is called has been replaced by then. */
  lemma DrawnIsReplaced(script: nat -> Answer, d: Destination, k: Key, at: nat, theirs: Data)
    requires forall n: nat :: script(n) == Replacing(n, theirs)
    requires Drawn(script, d, k, at) && d.directory == 1 && d.name in ["a", "b"]
    ensures k in script(at).removed && k in script(at).added && script(at).added[k] == theirs && !script(at).unlinkFails
  {
    var m: nat :| m < at && k.1 == TemporaryName(d.name, script(m).token);
    assert k == (1, TemporaryName(d.name, Marks(m)));
  }

  lemma OnlyTemporariesTaken(script: nat -> Answer, s: State, theirs: Data)
    requires forall n: nat :: script(n) == Replacing(n, theirs)
    requires TakenBefore(script, s)
    ensures forall k :: k in s.lost ==> |k.1| > 1
  {
    forall k | k in s.lost ensures |k.1| > 1 {
      var n: nat :| n < s.tick && k in script(n).removed;
      var m: nat, x :| m < n && x in ["a", "b"] && k == (1, TemporaryName(x, Marks(m)));
    }
  }

  /** Where others replace every temporary before each call, the publication of any two
      payloads reports success, both outputs hold what others wrote, and the clean-up has
      removed entries of theirs. */
  method PublishesReplacements(p: Data, q: Data, theirs: Data) returns (fs: FileSystem, fault: Option<Code>)
    ensures fresh(fs) && fs.Valid() && fs.UnlinksWork()
    ensures fault == None && fs.harmed
    ensures fs.entries.Keys >= {(1, "a"), (1, "b")} && fs.entries[(1, "a")] == fs.entries[(1, "b")] == theirs
  {
    hide FileSystem.Valid, FileSystem.Tame, FileSystem.UnlinksWork, FileSystem.Plain, Published, LinkSound, UnlinkSound, KeysOf, Harms,
      BothWritten, WellPosed, Usable, KeyOf, Replacing, Sound, NamesFree, Extends;
    var script := (n: nat) => Replacing(n, theirs);
    fs := new FileSystem(script, (parent: string) => Directory(1), map[]);
    var first, second := Path(true, "/out", "a", false), Path(true, "/out", "b", false);
    EmptyIsWellPosed(fs);
    ReplacingIsTame(fs, theirs);
    ghost var ds;
    fault, ds := WriteOutputs(fs, first, second, p, q);
    BooksAreSound(fs);
    ReplacementsArePublished(fs.script, fs.book, fs.Now(), ds, p, q, theirs);
  }

  lemma ReplacementsArePublished(script: nat -> Answer, b: Book, s: State, ds: seq<Destination>, p: Data, q: Data, theirs: Data)
    requires forall n: nat :: script(n) == Replacing(n, theirs)
    requires Sound(script, b, s) && Published(script, b, s.ours, s.lost, ds, p, q)
    requires Slot(ds[0]) == (1, "a") && Slot(ds[1]) == (1, "b")
    ensures Harms(b.unlinks)
    ensures s.entries.Keys >= {(1, "a"), (1, "b")} && s.entries[(1, "a")] == s.entries[(1, "b")] == theirs
  {
    hide Accounted, Replacing, Drawn;
    OnlyTemporariesTaken(script, s, theirs);
    forall i | 0 <= i < 2 ensures b.links[i].data == theirs && Slot(ds[i]) in s.entries && s.entries[Slot(ds[i])] == theirs {
      var l := b.links[i];
      assert LinkSound(script, l, s) && FromTemporary(script, ds[i], l, b.unlinks[i]);
      DrawnIsReplaced(script, ds[i], l.source, l.at, theirs);
    }
    var u := b.unlinks[0];
    assert u in b.unlinks && UnlinkSound(script, u, s) && FromTemporary(script, ds[0], b.links[0], u);
    DrawnIsReplaced(script, ds[0], u.key, u.at, theirs);
    assert u.replaced && u.works;
  }
}
