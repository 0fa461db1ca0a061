/** A file system as one program sees it while other processes work in the same
    directories: every call may fail, and between any two calls others may remove, replace
    and create entries. */
module FileSystems {
  import opened Outcomes

  type Data = seq<int>

  /** A directory entry: the identity of its directory and its name. */
  type Key = (int, string)

  /** The random part of a temporary name. */
  type Token = t: string | '-' !in t witness ""

  datatype Place = Missing | NotDirectory | Directory(id: int)

  /** How one system call goes: whether it fails, and separately whether it fails if it is
      an unlink, whether it sees another object at a path, what other processes have removed
      and then created before it, the random part of a temporary name, and how much of a
      failing write reached the file. */
  datatype Answer = Answer(
    fails: bool, unlinkFails: bool, moved: Option<Place>, removed: set<Key>, added: map<Key, Data>, token: Token, written: nat)

  /** Nothing fails and nobody else does anything, except that an unlink may fail. */
  predicate Quiet(a: Answer) {
    !a.fails && a.moved == None && a.removed == {} && a.added == map[]
  }

  /** No call of this stretch fails. */
  ghost predicate AllWorked(script: nat -> Answer, from: nat, to: nat) {
    forall n: nat :: from <= n < to ==> !script(n).fails
  }

  datatype Found = Present | Absent | Unknown

  datatype Opened = Fresh(descriptor: int, name: string) | NameTaken | OpenFailed

  /** What other processes can change: the entries, as those this program did not make and
      those it made; the names under which others took an entry of this program; all that
      others have created; and a count that grows whenever a call other than an unlink fails
      or something is not as it was. */
  datatype State = State(
    tick: nat, entries: map<Key, Data>, foreign: map<Key, Data>, ours: map<Key, Data>,
    lost: set<Key>, planted: set<(Key, Data)>, disturbances: nat)

  /** One unlink of this program: whether the call worked, and whether others had taken the
      entry of this program under that name and put one of theirs there. */
  datatype Unlink = Unlink(key: Key, at: nat, works: bool, replaced: bool)

  /** One link made by this program: what it published under the target, and whether others
      had replaced the source. */
  datatype Linking = Linking(source: Key, target: Key, at: nat, data: Data, replaced: bool)

  /** What this program did: the names it made, those of them it removed again, and its
      links and unlinks in order. */
  datatype Book = Book(made: set<Key>, gone: set<Key>, links: seq<Linking>, unlinks: seq<Unlink>)

  ghost function Created(b: Book, ks: set<Key>): Book {
    b.(made := b.made + ks, gone := b.gone - ks)
  }

  lemma CreatedMore(b: Book, ks: set<Key>, js: set<Key>)
    ensures Created(Created(b, ks), js) == Created(b, ks + js) && Created(b, {}) == b
  {
  }

  ghost function Linked(b: Book, ls: seq<Linking>): Book {
    Created(b, Targets(ls)).(links := b.links + ls)
  }

  ghost function Targets(ls: seq<Linking>): set<Key> {
    set l | l in ls :: l.target
  }

  lemma LinkedMore(b: Book, l: Linking, m: Linking)
    ensures Linked(Linked(b, [l]), [m]) == Linked(b, [l, m])
    ensures Targets([l]) == {l.target} && Targets([l, m]) == {l.target, m.target}
    ensures Linked(b, []) == b && Targets([]) == {}
    ensures Linked(b, [l]).made == b.made + {l.target} && Linked(b, [l]).gone == b.gone - {l.target}
  {
    assert l in [l] && m in [m] && l in [l, m] && m in [l, m];
    assert Targets([l]) == {l.target} && Targets([m]) == {m.target} && Targets([l, m]) == {l.target, m.target} && Targets([]) == {};
    assert b.links + [l] + [m] == b.links + [l, m];
  }

  ghost function Worked(us: seq<Unlink>): set<Key> {
    set u | u in us && u.works :: u.key
  }

  ghost function Unlinked(b: Book, us: seq<Unlink>): Book {
    b.(gone := b.gone + Worked(us), unlinks := b.unlinks + us)
  }

  lemma UnlinkedMore(b: Book, us: seq<Unlink>, u: Unlink)
    ensures Unlinked(Unlinked(b, us), [u]) == Unlinked(b, us + [u])
    ensures Worked([u]) == (if u.works then {u.key} else {})
    ensures Worked(us + [u]) == Worked(us) + Worked([u])
    ensures Unlinked(b, []) == b
  {
    assert b.unlinks + us + [u] == b.unlinks + (us + [u]);
    assert Worked([u]) == (if u.works then {u.key} else {}) by { assert u in [u]; }
    assert Worked([]) == {};
  }

  /** Some working unlink met a replacement. */
  ghost predicate Harms(us: seq<Unlink>) {
    exists u :: u in us && u.works && u.replaced
  }

  ghost predicate Fails(us: seq<Unlink>) {
    exists u :: u in us && !u.works
  }

  lemma OneMore(us: seq<Unlink>, u: Unlink)
    ensures Harms(us + [u]) <==> Harms(us) || (u.works && u.replaced)
    ensures Fails(us + [u]) <==> Fails(us) || !u.works
  {
    assert u in us + [u] && forall v :: v in us + [u] ==> v in us || v == u;
    assert forall v :: v in us ==> v in us + [u];
  }

  // ---------------------------------------------------------------- whose entries

  /** All entries are either foreign or ours, and under a name that others took from this
      program stands nothing of theirs but what they have planted there. */
  ghost predicate Consistent(s: State) {
    && s.entries == s.foreign + s.ours && s.foreign.Keys !! s.ours.Keys
    && forall k :: k in s.lost && k in s.foreign ==> (k, s.foreign[k]) in s.planted
  }

  /** Names of this program under which others have put something of theirs after taking
      what was there. */
  ghost predicate Replaced(k: Key, s: State) {
    k in s.lost && k in s.foreign
  }

  /** What is lost was taken by others at some call. */
  ghost predicate TakenBefore(script: nat -> Answer, s: State) {
    forall k :: k in s.lost ==> exists n: nat :: n < s.tick && k in script(n).removed
  }

  ghost predicate PlantedAt(k: Key, planted: set<(Key, Data)>) {
    exists data :: (k, data) in planted
  }

  /** An unlink meets a replacement if the name is taken and filled right before it, and only
      if it was taken and filled at some time. */
  ghost predicate UnlinkSound(script: nat -> Answer, u: Unlink, s: State) {
    && u.at < s.tick && (u.works <==> !script(u.at).unlinkFails)
    && (u.replaced ==> u.key in s.lost && PlantedAt(u.key, s.planted))
    && (u.key in script(u.at).removed && u.key in script(u.at).added ==> u.replaced)
  }

  /** So does a link, and then it publishes what others had put under its source. */
  ghost predicate LinkSound(script: nat -> Answer, l: Linking, s: State) {
    && l.at < s.tick
    && (l.replaced ==> l.source in s.lost && (l.source, l.data) in s.planted)
    && (l.source in script(l.at).removed && l.source in script(l.at).added ==> l.replaced && l.data == script(l.at).added[l.source])
  }

  /** What this program made is there, unless others took it or it removed it again. */
  ghost predicate Accounted(b: Book, s: State) {
    s.ours.Keys <= b.made && b.made <= s.ours.Keys + s.lost + b.gone && s.ours.Keys !! b.gone
  }

  ghost predicate LogSound(script: nat -> Answer, b: Book, s: State) {
    && (forall u :: u in b.unlinks ==> UnlinkSound(script, u, s))
    && (forall l :: l in b.links ==> LinkSound(script, l, s))
  }

  ghost predicate Sound(script: nat -> Answer, b: Book, s: State) {
    Consistent(s) && TakenBefore(script, s) && Accounted(b, s) && LogSound(script, b, s)
  }

  ghost predicate Extends(m: map<Key, Data>, n: map<Key, Data>) {
    m.Keys <= n.Keys && forall k :: k in m ==> n[k] == m[k]
  }

  ghost predicate Later(s: State, t: State) {
    s.tick <= t.tick && s.disturbances <= t.disturbances && s.lost <= t.lost && s.planted <= t.planted
  }

  lemma LogLater(script: nat -> Answer, b: Book, s: State, t: State)
    requires LogSound(script, b, s) && Later(s, t)
    ensures LogSound(script, b, t)
  {
    forall u | u in b.unlinks ensures UnlinkSound(script, u, t) {
      assert UnlinkSound(script, u, s);
      if u.replaced {
        var data :| (u.key, data) in s.planted;
        assert (u.key, data) in t.planted;
      }
    }
    forall l | l in b.links ensures LinkSound(script, l, t) {
      assert LinkSound(script, l, s);
    }
  }

  lemma OursAreThere(s: State, k: Key)
    requires Consistent(s)
    ensures k in s.ours ==> k in s.entries && s.entries[k] == s.ours[k] && k !in s.foreign
    ensures k in s.entries && k !in s.ours ==> k in s.foreign
    ensures k in s.foreign ==> k in s.entries && s.foreign[k] == s.entries[k]
    ensures k in s.foreign && k in s.lost ==> (k, s.foreign[k]) in s.planted && PlantedAt(k, s.planted)
  {
  }

  lemma MadeIsOurs(b: Book, s: State, k: Key)
    requires Accounted(b, s)
    ensures k in b.made && k !in b.gone && k !in s.lost ==> k in s.ours
    ensures k in s.ours ==> k in b.made && k !in b.gone
  {
  }

  // ---------------------------------------------------------------- what others do

  ghost function Pairs(m: map<Key, Data>): set<(Key, Data)> {
    set k | k in m :: (k, m[k])
  }

  /** Others create entries only under free names. */
  function New(added: map<Key, Data>, entries: map<Key, Data>): map<Key, Data> {
    map k | k in added && k !in entries :: added[k]
  }

  ghost function Removal(removed: set<Key>, s: State): State {
    s.(tick := s.tick + 1, entries := s.entries - removed, foreign := s.foreign - removed, ours := s.ours - removed,
       lost := s.lost + s.ours.Keys * removed)
  }

  ghost function Addition(added: map<Key, Data>, s: State): State {
    var more := New(added, s.entries);
    s.(entries := s.entries + more, foreign := s.foreign + more, planted := s.planted + Pairs(more))
  }

  ghost predicate Disturbs(a: Answer, s: State) {
    a.fails || a.moved.Some? || s.entries.Keys * a.removed != {} || New(a.added, s.entries - a.removed) != map[]
  }

  /** Others remove, then they create. */
  ghost function Others(a: Answer, s: State): State {
    Addition(a.added, Removal(a.removed, s)).(disturbances := s.disturbances + if Disturbs(a, s) then 1 else 0)
  }

  lemma Untouched(m: map<Key, Data>, removed: set<Key>)
    requires m.Keys !! removed
    ensures m - removed == m
  {
  }

  lemma RemovalKeeps(script: nat -> Answer, b: Book, s: State)
    requires Sound(script, b, s)
    ensures var t := Removal(script(s.tick).removed, s); Sound(script, b, t) && Later(s, t)
  {
    var removed := script(s.tick).removed;
    var t := Removal(removed, s);
    LogLater(script, b, s, t);
    assert TakenBefore(script, t) by {
      forall k | k in t.lost ensures exists n: nat :: n < t.tick && k in script(n).removed {
        if k in s.lost {
          var n: nat :| n < s.tick && k in script(n).removed;
          assert n < t.tick;
        } else {
          assert s.tick < t.tick && k in script(s.tick).removed;
        }
      }
    }
  }

  lemma AdditionKeeps(script: nat -> Answer, b: Book, s: State, added: map<Key, Data>)
    requires Sound(script, b, s)
    ensures var t := Addition(added, s); Sound(script, b, t) && Later(s, t)
  {
    var t := Addition(added, s);
    LogLater(script, b, s, t);
    assert TakenBefore(script, t);
    var more := New(added, s.entries);
    forall k | k in t.lost && k in t.foreign ensures (k, t.foreign[k]) in t.planted {
      if k in more { assert (k, more[k]) in Pairs(more); }
    }
  }

  lemma OthersKeep(script: nat -> Answer, b: Book, s: State)
    requires Sound(script, b, s)
    ensures Sound(script, b, Others(script(s.tick), s)) && Later(s, Others(script(s.tick), s))
  {
    var a := script(s.tick);
    var mid := Removal(a.removed, s);
    var last := Addition(a.added, mid);
    RemovalKeeps(script, b, s);
    AdditionKeeps(script, b, mid, a.added);
    SoundAlike(script, b, last, Others(a, s));
  }

  lemma SoundAlike(script: nat -> Answer, b: Book, s: State, t: State)
    requires Sound(script, b, s) && t == s.(disturbances := t.disturbances) && s.disturbances <= t.disturbances
    ensures Sound(script, b, t)
  {
    LogLater(script, b, s, t);
  }

  /** What is taken and filled before a call is a replacement at that call. */
  lemma OthersRefill(a: Answer, s: State, k: Key)
    requires k in a.removed && k in a.added
    ensures var t := Others(a, s); k in t.foreign && t.foreign[k] == a.added[k] && k !in t.ours
  {
  }

  lemma Undisturbed(a: Answer, s: State)
    requires Consistent(s) && !Disturbs(a, s)
    ensures Others(a, s) == s.(tick := s.tick + 1) && !a.fails && a.moved == None
  {
    assert forall k :: k in s.entries && k in a.removed ==> k in s.entries.Keys * a.removed;
    Untouched(s.entries, a.removed);
    Untouched(s.foreign, a.removed);
    Untouched(s.ours, a.removed);
    var mid := Removal(a.removed, s);
    assert mid == s.(tick := s.tick + 1);
    assert New(a.added, s.entries) == map[];
    assert s.entries + map[] == s.entries && s.foreign + map[] == s.foreign && Pairs(map[]) == {};
  }

  lemma OthersAre(a: Answer, s: State)
    ensures var t := Others(a, s);
            && t.entries == (s.entries - a.removed) + New(a.added, s.entries - a.removed)
            && t.ours == s.ours - a.removed && t.tick == s.tick + 1
  {
  }

  /** Makes or changes an entry of this program. */
  ghost function Entered(k: Key, data: Data, s: State): State {
    s.(entries := s.entries[k := data], ours := s.ours[k := data])
  }

  lemma EnteredSound(script: nat -> Answer, b: Book, s: State, k: Key, data: Data)
    requires Sound(script, b, s) && (k in s.ours || k !in s.entries)
    ensures Sound(script, Created(b, {k}), Entered(k, data, s))
    ensures k in s.ours ==> Created(b, {k}) == b
  {
    LogLater(script, b, s, Entered(k, data, s));
    ConsistentWith(script, s, k, data);
    AccountedWith(b, s, k, data);
    assert LogSound(script, Created(b, {k}), Entered(k, data, s));
    hide Consistent, TakenBefore, LogSound, Accounted, Entered, Created;
  }

  lemma ConsistentWith(script: nat -> Answer, s: State, k: Key, data: Data)
    requires Consistent(s) && TakenBefore(script, s) && (k in s.ours || k !in s.entries)
    ensures Consistent(Entered(k, data, s)) && TakenBefore(script, Entered(k, data, s))
  {
  }

  lemma AccountedWith(b: Book, s: State, k: Key, data: Data)
    requires Accounted(b, s)
    ensures Accounted(Created(b, {k}), Entered(k, data, s)) && (k in s.ours ==> Created(b, {k}) == b)
  {
  }

  lemma SoundOne(script: nat -> Answer, b: Book, s: State, k: Key)
    requires Sound(script, b, s) && k in s.ours
    ensures k in s.entries && k in b.made && k !in b.gone
  {
    OursAreThere(s, k);
    MadeIsOurs(b, s, k);
  }

  lemma MoreLinks(script: nat -> Answer, b: Book, l: Linking, s: State)
    requires Sound(script, Created(b, {l.target}), s) && LinkSound(script, l, s)
    ensures Sound(script, Linked(b, [l]), s)
  {
    LinkedMore(b, l, l);
  }

  ghost function Dropped(k: Key, s: State): State {
    s.(entries := s.entries - {k}, foreign := s.foreign - {k}, ours := s.ours - {k})
  }

  lemma UnlinkedSound(script: nat -> Answer, b: Book, s: State, u: Unlink)
    requires Sound(script, b, s) && UnlinkSound(script, u, s)
    ensures Sound(script, Unlinked(b, [u]), if u.works then Dropped(u.key, s) else s)
  {
    hide UnlinkSound, LinkSound;
    var t := if u.works then Dropped(u.key, s) else s;
    SameTime(script, u, s, t);
    LoggedMore(script, b, s, u, t);
    AccountedWithout(b, s, u);
    ConsistentWithout(script, s, u.key);
    hide Consistent, TakenBefore, LogSound, Accounted;
  }

  lemma ConsistentWithout(script: nat -> Answer, s: State, k: Key)
    requires Consistent(s) && TakenBefore(script, s)
    ensures Consistent(Dropped(k, s)) && TakenBefore(script, Dropped(k, s))
  {
  }

  lemma SameTime(script: nat -> Answer, u: Unlink, s: State, t: State)
    requires UnlinkSound(script, u, s) && Later(s, t)
    ensures UnlinkSound(script, u, t)
  {
    if u.replaced {
      var data :| (u.key, data) in s.planted;
      assert (u.key, data) in t.planted;
    }
  }

  lemma LoggedMore(script: nat -> Answer, b: Book, s: State, u: Unlink, t: State)
    requires LogSound(script, b, s) && Later(s, t) && UnlinkSound(script, u, t)
    ensures LogSound(script, Unlinked(b, [u]), t)
  {
    LogLater(script, b, s, t);
    hide UnlinkSound, LinkSound, Worked;
  }

  lemma AccountedWithout(b: Book, s: State, u: Unlink)
    requires Accounted(b, s)
    ensures Accounted(Unlinked(b, [u]), if u.works then Dropped(u.key, s) else s)
  {
    UnlinkedMore(b, [], u);
    hide Worked;
  }

  /** Descriptors are handed out in order. */
  predicate Numbered(open: map<int, int>, files: map<int, Key>, next: int) {
    (forall d :: d in open ==> d < next) && (forall d :: d in files ==> d < next)
  }

  lemma NextNumber(open: map<int, int>, files: map<int, Key>, next: int, id: int, k: Key)
    requires Numbered(open, files, next)
    ensures next !in open && next !in files
    ensures Numbered(open[next := id], files, next + 1) && Numbered(open, files[next := k], next + 1)
  {
  }

  // ---------------------------------------------------------------- names of temporaries

  function TemporaryName(name: string, token: Token): string {
    "." + name + ".tmp-" + token
  }

  /** The name ends as one with this random part does. */
  predicate Carries(name: string, token: Token) {
    |name| > |token| && name[|name| - |token| - 1] == '-' && name[|name| - |token|..] == token
  }

  lemma CarriesItsToken(name: string, token: Token)
    ensures Carries(TemporaryName(name, token), token)
  {
  }

  lemma CarriesOne(name: string, t: Token, u: Token)
    requires Carries(name, t) && Carries(name, u)
    ensures t == u
  {
    assert |t| == |u|;
  }

  /** Temporaries of different names differ, whatever their random parts. */
  lemma TemporariesDiffer(a: Key, b: Key, t: Token, u: Token)
    requires a != b
    ensures (a.0, TemporaryName(a.1, t)) != (b.0, TemporaryName(b.1, u)) && (a.0, TemporaryName(a.1, t)) != a
  {
    var x, y := TemporaryName(a.1, t), TemporaryName(b.1, u);
    CarriesItsToken(a.1, t);
    CarriesItsToken(b.1, u);
    if x == y {
      CarriesOne(x, t, u);
      assert x[1..|a.1| + 1] == a.1 && y[1..|b.1| + 1] == b.1;
    }
  }

  // ---------------------------------------------------------------- the calls

  class FileSystem {
    const script: nat -> Answer
    const places: string -> Place
    var tick: nat
    var entries: map<Key, Data>
    /** Open directory descriptors. */
    var open: map<int, int>
    /** Descriptors of files being written. */
    var files: map<int, Key>
    var next: int
    /** The entries this program did not make: there from the start or made by others. */
    ghost var foreign: map<Key, Data>
    /** The entries this program made, as far as they are still there. */
    var ours: map<Key, Data>
    ghost var lost: set<Key>
    ghost var planted: set<(Key, Data)>
    ghost var disturbances: nat
    ghost var book: Book
    /** This program removed an entry that others had made. */
    ghost var harmed: bool
    ghost var unlinkFailed: bool

    ghost function Now(): State
      reads this
    {
      State(tick, entries, foreign, ours, lost, planted, disturbances)
    }

    ghost predicate Valid()
      reads this
    {
      && Sound(script, book, Now()) && Numbered(open, files, next)
      && (harmed <==> Harms(book.unlinks)) && (unlinkFailed <==> Fails(book.unlinks))
    }

    /** This program has done nothing yet. */
    ghost predicate Starting()
      reads this
    {
      ours == map[] && lost == {} && book == Book({}, {}, [], [])
    }

    constructor (script: nat -> Answer, places: string -> Place, entries: map<Key, Data>)
      ensures Valid() && Starting() && this.script == script && this.places == places && this.entries == entries
      ensures foreign == entries && open == map[] && files == map[] && tick == 0
    {
      this.script, this.places, this.entries := script, places, entries;
      tick, open, files, next, foreign, ours := 0, map[], map[], 0, entries, map[];
      lost, planted, disturbances, book, harmed, unlinkFailed := {}, {}, 0, Book({}, {}, [], []), false, false;
    }

    ghost predicate UnlinksWork() {
      forall n: nat :: !script(n).unlinkFails
    }

    ghost predicate UnlinksFail() {
      forall n: nat :: script(n).unlinkFails
    }

    /** Others only create entries. */
    ghost predicate Steady() {
      forall n: nat :: script(n).removed == {}
    }

    /** Nothing happens but this program, and nothing fails except perhaps unlinks. */
    ghost predicate Placid() {
      forall n: nat ::
        Quiet(script(n)) && script(n).token == script(0).token
    }

    /** The name of a temporary when every random part is the first one. */
    ghost function Temporary(name: string): string {
      TemporaryName(name, script(0).token)
    }

    // -------------------------------------------------------------- others that do not hinder

    /** Nothing fails except perhaps unlinks; random parts do not come twice; and others touch
        only names of temporaries after their random part has been drawn, refilling what they
        take. */
    ghost predicate Tame() {
      && (forall n: nat :: TameAnswer(script(n)) && OnlyEarlier(n))
      && (forall m: nat, n: nat :: m != n ==> script(m).token != script(n).token)
    }

    predicate TameAnswer(a: Answer) {
      !a.fails && a.moved == None && a.removed <= a.added.Keys
    }

    ghost predicate OnlyEarlier(n: nat) {
      forall k :: k in script(n).added ==> exists m: nat :: m < n && Carries(k.1, script(m).token)
    }

    /** A name that no temporary has. */
    ghost predicate Plain(name: string) {
      forall n: nat :: !Carries(name, script(n).token)
    }

    ghost predicate AllPlain(ks: set<Key>) {
      forall k :: k in ks ==> Plain(k.1)
    }

    /** No entry has the name of a temporary still to be made. */
    ghost predicate Ahead(s: State) {
      AheadOf(s.tick, s.entries)
    }

    ghost predicate AheadOf(n: nat, entries: map<Key, Data>) {
      forall k, m: nat :: k in entries && n <= m ==> !Carries(k.1, script(m).token)
    }

    // -------------------------------------------------------------- what calls have in common

    /** What every call keeps: losses are counted, and others are spared. */
    ghost predicate Onward(s: State, t: State) {
      && Later(s, t)
      && (Steady() ==> t.lost == s.lost && (t.lost == {} ==> Extends(s.foreign, t.foreign)))
      && (t.disturbances == s.disturbances ==> t.lost == s.lost && (t.lost == {} ==> t.foreign == s.foreign))
    }

    /** Outside these keys, entries of ours are only ever lost to others. */
    ghost predicate Touched(e: set<Key>, s: State, t: State) {
      && Onward(s, t)
      && (forall k :: k in s.ours && k !in e && k !in t.lost ==> k in t.ours)
      && (forall k :: k in t.ours && k !in e ==> k in s.ours && t.ours[k] == s.ours[k])
    }

    /** Of ours, at most these keys were removed by this program. */
    ghost predicate Cleared(e: set<Key>, s: State, t: State) {
      && Onward(s, t)
      && (forall k :: k in s.ours && k !in e && k !in t.lost ==> k in t.ours)
      && (forall k :: k in t.ours ==> k in s.ours && t.ours[k] == s.ours[k])
    }

    /** Without disturbance, names come only from these. */
    ghost predicate Calm(e: set<Key>, s: State, t: State) {
      t.disturbances == s.disturbances ==> s.entries.Keys <= t.entries.Keys <= s.entries.Keys + e
    }

    /** With others that do not hinder, plain names come only from these. */
    ghost predicate Tamed(f: set<Key>, s: State, t: State) {
      Tame() && Ahead(s) && AllPlain(f) ==>
        && Ahead(t) && s.entries.Keys <= t.entries.Keys
        && forall k :: k in t.entries && k !in s.entries && k !in f ==> !Plain(k.1)
    }

    /** This program touched only entries e, of which only f have plain names, and removed
        nothing. */
    ghost predicate Confined(e: set<Key>, f: set<Key>, s: State, t: State) {
      Touched(e, s, t) && Calm(e, s, t) && Tamed(f, s, t)
    }

    /** This program did nothing to entries. */
    ghost predicate Passed(s: State, t: State) {
      Confined({}, {}, s, t) && (Placid() ==> t.disturbances == s.disturbances)
    }

    /** No call went wrong. */
    ghost predicate Smooth(s: State, t: State) {
      t.disturbances == s.disturbances || Tame()
    }

    /** And nobody uses these names. */
    ghost predicate Fair(names: set<string>, s: State, t: State) {
      t.disturbances == s.disturbances || (Tame() && Ahead(s) && forall name :: name in names ==> Plain(name))
    }

    lemma TouchedAgain(e: set<Key>, e': set<Key>, s: State, t: State, u: State)
      requires Touched(e, s, t) && Touched(e', t, u)
      ensures Touched(e + e', s, u) && Later(s, t) && Later(t, u)
    {
      assert Onward(s, u);
    }

    lemma OnwardNothing(s: State)
      ensures Onward(s, s)
    {
    }

    lemma OnwardAgain(s: State, t: State, u: State)
      requires Onward(s, t) && Onward(t, u)
      ensures Onward(s, u) && Later(s, t) && Later(t, u)
    {
    }

    lemma ConfinedOnward(e: set<Key>, f: set<Key>, s: State, t: State)
      requires Confined(e, f, s, t)
      ensures Onward(s, t) && Later(s, t)
    {
    }

    lemma ClearedOnward(e: set<Key>, s: State, t: State)
      requires Cleared(e, s, t)
      ensures Onward(s, t) && Later(s, t)
    {
    }

    lemma ClearedAgain(e: set<Key>, e': set<Key>, s: State, t: State, u: State)
      requires Cleared(e, s, t) && Cleared(e', t, u)
      ensures Cleared(e + e', s, u) && Later(s, t) && Later(t, u)
    {
      assert Onward(s, u);
    }

    lemma PassedIsCleared(s: State, t: State)
      requires Confined({}, {}, s, t)
      ensures Cleared({}, s, t)
    {
    }

    lemma ClearedThen(e: set<Key>, s: State, t: State, u: State)
      requires Cleared(e, s, t) && Confined({}, {}, t, u)
      ensures Cleared(e, s, u) && Later(s, t) && Later(t, u)
    {
      PassedIsCleared(t, u);
      hide Cleared, Confined;
      ClearedAgain(e, {}, s, t, u);
      assert e + {} == e;
    }

    lemma TamedAgain(f: set<Key>, f': set<Key>, s: State, t: State, u: State)
      requires Tamed(f, s, t) && Tamed(f', t, u)
      ensures Tamed(f + f', s, u)
    {
      if Tame() && Ahead(s) && AllPlain(f + f') {
        assert AllPlain(f) && AllPlain(f');
      }
    }

    lemma Then(e: set<Key>, f: set<Key>, e': set<Key>, f': set<Key>, s: State, t: State, u: State)
      requires Confined(e, f, s, t) && Confined(e', f', t, u)
      ensures Confined(e + e', f + f', s, u) && Later(s, t) && Later(t, u)
    {
      TamedAgain(f, f', s, t, u);
      TouchedAgain(e, e', s, t, u);
      hide Touched, Tamed;
    }

    lemma NothingThen(e: set<Key>, f: set<Key>, s: State, t: State, u: State)
      requires Confined({}, {}, s, t) && Confined(e, f, t, u)
      ensures Confined(e, f, s, u) && Later(s, t) && Later(t, u)
    {
      hide Confined;
      Then({}, {}, e, f, s, t, u);
      assert {} + e == e && {} + f == f;
    }

    lemma ThenNothing(e: set<Key>, f: set<Key>, s: State, t: State, u: State)
      requires Confined(e, f, s, t) && Confined({}, {}, t, u)
      ensures Confined(e, f, s, u) && Later(s, t) && Later(t, u)
    {
      hide Confined;
      Then(e, f, {}, {}, s, t, u);
      assert e + {} == e && f + {} == f;
    }

    lemma ThenMore(e: set<Key>, e': set<Key>, s: State, t: State, u: State)
      requires Confined(e, {}, s, t) && Confined(e', {}, t, u)
      ensures Confined(e + e', {}, s, u) && Later(s, t) && Later(t, u)
    {
      hide Confined;
      ghost var f: set<Key> := {};
      Then(e, f, e', f, s, t, u);
      assert f + f == f;
    }

    lemma ThenSame(e: set<Key>, s: State, t: State, u: State)
      requires Confined(e, {}, s, t) && Confined(e, {}, t, u)
      ensures Confined(e, {}, s, u) && Later(s, t) && Later(t, u)
    {
      hide Confined;
      ghost var f: set<Key> := {};
      Then(e, f, e, f, s, t, u);
      assert e + e == e && f + f == f;
    }

    lemma PassedNothing(s: State)
      ensures Passed(s, s)
    {
    }

    lemma PassedAgain(s: State, t: State, u: State)
      requires Passed(s, t) && Passed(t, u)
      ensures Passed(s, u) && Later(s, t) && Later(t, u)
    {
      hide Confined;
      ThenNothing({}, {}, s, t, u);
    }

    lemma FairParts(names: set<string>, e: set<Key>, f: set<Key>, s: State, t: State, u: State)
      requires Confined(e, f, s, t) && Later(t, u) && Fair(names, s, u)
      requires forall k :: k in f ==> k.1 in names
      ensures Fair(names, s, t) && Fair(names, t, u) && Smooth(t, u)
    {
    }

    /** Entries stay, and a name only comes if this program makes it. */
    lemma FairNames(names: set<string>, e: set<Key>, f: set<Key>, s: State, t: State, k: Key)
      requires Confined(e, f, s, t) && Fair(names, s, t)
      requires forall k :: k in f ==> k.1 in names
      ensures k in s.entries ==> k in t.entries
      ensures k.1 in names && k !in f && k in t.entries && (t.disturbances == s.disturbances ==> k !in e) ==> k in s.entries
    {
    }

    // -------------------------------------------------------------- others between two calls

    lemma TameBegin(s: State, t: State)
      requires Tame() && Ahead(s) && t.tick == s.tick + 1
      requires forall k :: k in s.entries && k !in script(s.tick).removed ==> k in t.entries
      requires forall k :: k in script(s.tick).added ==> k in t.entries
      requires forall k :: k in t.entries ==> k in s.entries || k in script(s.tick).added
      ensures Tamed({}, s, t)
    {
      assert TameAnswer(script(s.tick)) && OnlyEarlier(s.tick);
      forall k, m: nat | k in t.entries && s.tick <= m ensures !Carries(k.1, script(m).token) {
        if k !in s.entries && Carries(k.1, script(m).token) {
          var j: nat :| j < s.tick && Carries(k.1, script(j).token);
          CarriesOne(k.1, script(j).token, script(m).token);
        }
      }
    }

    lemma OthersPass(s: State)
      requires Consistent(s)
      ensures var a := script(s.tick);
              Passed(s, Others(a, s)) && (Smooth(s, Others(a, s)) ==> !a.fails && a.moved == None)
    {
      hide Consistent, Others, Disturbs, Touched, Tamed, Quiet, TameAnswer, OnlyEarlier;
      OthersTouch(s);
      OthersDisturb(s);
      OthersTame(s);
    }

    lemma OthersTame(s: State)
      ensures Tamed({}, s, Others(script(s.tick), s))
      ensures Tame() ==> TameAnswer(script(s.tick)) && !script(s.tick).fails && script(s.tick).moved == None
    {
      OthersAre(script(s.tick), s);
      hide Others;
      if Tame() && Ahead(s) { TameBegin(s, Others(script(s.tick), s)); }
    }

    lemma OthersDisturb(s: State)
      requires Consistent(s)
      ensures var a, t := script(s.tick), Others(script(s.tick), s);
              && Calm({}, s, t) && (t.disturbances == s.disturbances ==> !a.fails && a.moved == None)
              && (Placid() ==> t.disturbances == s.disturbances)
    {
      var a := script(s.tick);
      if !Disturbs(a, s) { Undisturbed(a, s); }
      if Placid() {
        assert Quiet(a);
        assert s.entries.Keys * {} == {} && s.entries - {} == s.entries && New(map[], s.entries) == map[];
      }
    }

    lemma OthersTouch(s: State)
      requires Consistent(s)
      ensures Touched({}, s, Others(script(s.tick), s))
    {
      var a := script(s.tick);
      if !Disturbs(a, s) { Undisturbed(a, s); }
      assert Steady() ==> a.removed == {};
    }

    ghost method Note(t: State)
      modifies `foreign, `lost, `planted, `disturbances
      ensures foreign == t.foreign && lost == t.lost && planted == t.planted && disturbances == t.disturbances
    {
      foreign, lost, planted, disturbances := t.foreign, t.lost, t.planted, t.disturbances;
    }

    /** Moves on to a state in which the books are right. */
    method Become(entries': map<Key, Data>, ours': map<Key, Data>, ghost t: State)
      requires Valid() && Sound(script, book, t) && t.entries == entries' && t.ours == ours' && t.tick == tick + 1
      modifies `tick, `entries, `foreign, `disturbances, `ours, `lost, `planted
      ensures Valid() && Now() == t
    {
      hide Sound, Harms, Fails, Numbered;
      tick, entries, ours := tick + 1, entries', ours';
      Note(t);
    }

    /** What others do before a call. */
    method Begin() returns (a: Answer)
      requires Valid()
      modifies `tick, `entries, `foreign, `disturbances, `ours, `lost, `planted
      ensures a == script(old(tick)) && Now() == Others(a, old(Now()))
      ensures Valid() && Passed(old(Now()), Now()) && tick == old(tick) + 1 && Later(old(Now()), Now())
      ensures Smooth(old(Now()), Now()) ==> !a.fails && a.moved == None
    {
      hide Sound, Others, Passed, Smooth, Harms, Fails;
      a := script(tick);
      OthersKeep(script, book, Now());
      Passing(Now());
      ghost var next := Others(a, Now());
      OthersAre(a, Now());
      Become((entries - a.removed) + New(a.added, entries - a.removed), ours - a.removed, next);
    }

    lemma Passing(s: State)
      requires Sound(script, book, s)
      ensures var a := script(s.tick);
              Passed(s, Others(a, s)) && (Smooth(s, Others(a, s)) ==> !a.fails && a.moved == None)
    {
      OthersPass(s);
    }

    // -------------------------------------------------------------- calls without an effect on entries

    /** A call on an open file: chmod, fdopen, flush, fsync. */
    method Attempt() returns (ok: bool)
      requires Valid()
      modifies `tick, `entries, `foreign, `disturbances, `ours, `lost, `planted
      ensures Valid() && Passed(old(Now()), Now())
      ensures Smooth(old(Now()), Now()) ==> ok
      ensures tick == old(tick) + 1 && (ok <==> AllWorked(script, old(tick), tick))
    {
      hide Sound, Others, Passed, Smooth, Harms, Fails;
      var a := Begin();
      ok := !a.fails;
    }

    /** What a look at this path at this call finds; nothing if the call fails. */
    function SeenAt(parent: string, n: nat): Place {
      if script(n).fails then Missing else if script(n).moved.Some? then script(n).moved.value else places(parent)
    }

    method Stat(parent: string) returns (place: Place)
      requires Valid()
      modifies `tick, `entries, `foreign, `disturbances, `ours, `lost, `planted
      ensures Valid() && Passed(old(Now()), Now())
      ensures place == SeenAt(parent, old(tick)) && tick == old(tick) + 1
      ensures Smooth(old(Now()), Now()) ==> place == places(parent)
    {
      hide Sound, Others, Passed, Smooth, Harms, Fails;
      var a := Begin();
      place := if a.fails then Missing else if a.moved.Some? then a.moved.value else places(parent);
    }

    method OpenDirectory(parent: string) returns (d: Option<int>)
      requires Valid()
      modifies `tick, `entries, `foreign, `disturbances, `open, `next, `ours, `lost, `planted
      ensures Valid() && Passed(old(Now()), Now())
      ensures d == None ==> open == old(open)
      ensures tick == old(tick) + 1 && (d.Some? <==> SeenAt(parent, old(tick)).Directory?)
      ensures d.Some? ==> d.value !in old(open) && d.value !in files && d.value in open && open == old(open)[d.value := open[d.value]]
      ensures d.Some? ==> open[d.value] == SeenAt(parent, old(tick)).id
      ensures Smooth(old(Now()), Now()) && places(parent).Directory? ==> d.Some? && open[d.value] == places(parent).id
    {
      hide Sound, Others, Passed, Smooth, Harms, Fails, Numbered;
      var a := Begin();
      var place := if a.moved.Some? then a.moved.value else places(parent);
      if a.fails || !place.Directory? { return None; }
      NextNumber(open, files, next, place.id, (0, ""));
      d := Some(next);
      open := open[next := place.id];
      next := next + 1;
    }

    method Fstat(d: int) returns (id: Option<int>)
      requires Valid() && d in open
      modifies `tick, `entries, `foreign, `disturbances, `ours, `lost, `planted
      ensures Valid() && Passed(old(Now()), Now())
      ensures id.Some? ==> id.value == open[d]
      ensures tick == old(tick) + 1 && (id.Some? <==> !script(old(tick)).fails)
      ensures Smooth(old(Now()), Now()) ==> id.Some?
    {
      hide Sound, Others, Passed, Smooth, Harms, Fails;
      var a := Begin();
      id := if a.fails then None else Some(open[d]);
    }

    method StatAt(d: int, name: string) returns (found: Found)
      requires Valid() && d in open
      modifies `tick, `entries, `foreign, `disturbances, `ours, `lost, `planted
      ensures Valid() && Passed(old(Now()), Now())
      ensures tick == old(tick) + 1 && (found == Unknown <==> script(old(tick)).fails)
      ensures Fair({name}, old(Now()), Now()) ==>
        found == if (open[d], name) in old(entries) then Present else Absent
    {
      hide Sound, Others, Tame, AheadOf, Plain, Confined, Harms, Fails;
      var a := Begin();
      found := if a.fails then Unknown else if (open[d], name) in entries then Present else Absent;
      if Fair({name}, old(Now()), Now()) { FairNames({name}, {}, {}, old(Now()), Now(), (open[d], name)); }
    }

    /** Closing releases the descriptor even when it reports an error. */
    method CloseFile(f: int) returns (ok: bool)
      requires Valid() && f in files
      modifies `tick, `entries, `foreign, `disturbances, `files, `ours, `lost, `planted
      ensures Valid() && Passed(old(Now()), Now())
      ensures files == old(files) - {f}
      ensures Smooth(old(Now()), Now()) ==> ok
      ensures tick == old(tick) + 1 && (ok <==> AllWorked(script, old(tick), tick))
    {
      hide Sound, Others, Passed, Smooth, Harms, Fails;
      ok := Attempt();
      files := files - {f};
    }

    method CloseDirectory(d: int)
      requires Valid() && d in open
      modifies `tick, `entries, `foreign, `disturbances, `open, `ours, `lost, `planted
      ensures Valid() && Passed(old(Now()), Now())
      ensures open == old(open) - {d}
    {
      hide Sound, Others, Passed, Smooth, Harms, Fails;
      var _ := Attempt();
      open := open - {d};
    }

    // -------------------------------------------------------------- calls that change entries

    lemma EnteredTouched(k: Key, data: Data, s: State, t: State)
      requires Confined({}, {}, s, t)
      ensures Touched({k}, s, Entered(k, data, t)) && Calm({k}, s, Entered(k, data, t))
    {
    }

    /** An entry that was there is filled. */
    lemma FilledIsConfined(k: Key, data: Data, s: State, t: State)
      requires Confined({}, {}, s, t) && k in t.entries
      ensures Confined({k}, {}, s, Entered(k, data, t))
    {
      EnteredTouched(k, data, s, t);
      assert Ahead(t) ==> Ahead(Entered(k, data, t));
      hide Touched;
    }

    /** An entry with a plain name is made. */
    lemma LinkedIsConfined(k: Key, data: Data, s: State, t: State)
      requires Confined({}, {}, s, t)
      ensures Confined({k}, {k}, s, Entered(k, data, t))
    {
      EnteredTouched(k, data, s, t);
      assert AllPlain({k}) ==> Plain(k.1);
      assert Ahead(t) && Plain(k.1) ==> Ahead(Entered(k, data, t));
      hide Touched;
    }

    /** With others that do not hinder, a new temporary is always free. */
    lemma TameCreation(s: State, dir: int, name: string)
      requires Tame() && Ahead(s)
      ensures var k, t := (dir, TemporaryName(name, script(s.tick).token)), Others(script(s.tick), s);
              k !in t.entries && !Plain(k.1) && (Ahead(t) ==> Ahead(Entered(k, [], t)))
    {
      var n := s.tick;
      var k, t := (dir, TemporaryName(name, script(n).token)), Others(script(n), s);
      CarriesItsToken(name, script(n).token);
      assert OnlyEarlier(n);
      if k in script(n).added {
        var j: nat :| j < n && Carries(k.1, script(j).token);
        CarriesOne(k.1, script(j).token, script(n).token);
      }
      forall m: nat | n + 1 <= m ensures !Carries(k.1, script(m).token) {
        if Carries(k.1, script(m).token) { CarriesOne(k.1, script(n).token, script(m).token); }
      }
    }

    /** A new and empty temporary is made. */
    lemma CreatedIsConfined(k: Key, s: State, t: State)
      requires Confined({}, {}, s, t)
      requires Tame() && Ahead(s) ==> !Plain(k.1) && (Ahead(t) ==> Ahead(Entered(k, [], t)))
      ensures Confined({k}, {}, s, Entered(k, [], t))
    {
      EnteredTouched(k, [], s, t);
      hide Touched;
    }

    /** What is no longer there was taken by others. */
    lemma OnlyLost(k: Key, s: State, t: State)
      requires Confined({}, {}, s, t)
      ensures k in s.ours ==> k in t.ours || k in t.lost
    {
    }

    lemma OursOrLost(k: Key)
      requires Valid() && k in book.made && k !in book.gone
      ensures k in ours || k in lost
    {
      MadeIsOurs(book, Now(), k);
    }

    lemma OursAreEntries(k: Key)
      requires Valid()
      ensures k in ours ==> k in entries
    {
    }

    lemma DisturbedStill(s: State, t: State)
      requires Confined({}, {}, s, t)
      ensures Confined({}, {}, s, t.(disturbances := t.disturbances + 1))
    {
    }

    ghost method Disturb()
      requires Valid()
      modifies `disturbances
      ensures Valid() && Now() == old(Now()).(disturbances := old(disturbances) + 1)
    {
      SoundAlike(script, book, Now(), Now().(disturbances := disturbances + 1));
      hide Sound, Harms, Fails, Numbered;
      disturbances := disturbances + 1;
    }

    /** Makes or changes an entry of this program. */
    method Enter(k: Key, data: Data, ghost b: Book)
      requires Valid() && Sound(script, b, Entered(k, data, Now())) && b.unlinks == book.unlinks
      modifies `entries, `ours, `book
      ensures Valid() && Now() == Entered(k, data, old(Now())) && book == b
    {
      hide Sound, Harms, Fails, Numbered;
      entries := entries[k := data];
      ours := ours[k := data];
      book := b;
    }

    /** A new and empty entry, open for writing. */
    method NewFile(k: Key) returns (f: int)
      requires Valid() && k !in entries
      modifies `entries, `ours, `book, `files, `next
      ensures Valid() && Now() == Entered(k, [], old(Now())) && book == Created(old(book), {k})
      ensures f !in old(files) && f !in open && files == old(files)[f := k]
    {
      EnteredSound(script, book, Now(), k, []);
      hide Sound, Harms, Fails, Numbered;
      Enter(k, [], Created(book, {k}));
      NextNumber(open, files, next, 0, k);
      f := next;
      files := files[f := k];
      next := next + 1;
    }

    lemma PlacidToken(n: nat)
      ensures Placid() ==> script(n).token == script(0).token && Quiet(script(n))
    {
    }

    lemma PlacidNames(s: State, t: State)
      requires Passed(s, t)
      ensures Placid() ==> t.entries.Keys == s.entries.Keys
    {
    }

    /** Creates a temporary for this name. The names in avoid are the destinations: to hit
        one of them, or an entry, with a random name is a disturbance too. */
    method CreateExclusive(d: int, name: string, ghost avoid: set<Key>) returns (r: Opened)
      requires Valid() && d in open
      modifies `tick, `entries, `foreign, `disturbances, `ours, `files, `next, `lost, `planted, `book
      ensures Valid()
      ensures !r.Fresh? ==>
        Confined({}, {}, old(Now()), Now()) && files == old(files) && book == old(book) && disturbances > old(disturbances)
      ensures tick == old(tick) + 1 && (r == OpenFailed ==> script(old(tick)).fails) && (r.Fresh? ==> !script(old(tick)).fails)
      ensures r.Fresh? ==>
        var k := (open[d], r.name);
        && r.name == TemporaryName(name, script(old(tick)).token) && old(tick) < tick
        && Confined({k}, {}, old(Now()), Now()) && k in ours && ours[k] == [] && k in entries && (k in old(ours) ==> k in lost)
        && book == Created(old(book), {k})
        && r.descriptor !in old(files) && r.descriptor !in open && files == old(files)[r.descriptor := k]
      ensures disturbances == old(disturbances) ==> r.Fresh? && (open[d], r.name) !in avoid
      ensures Fair({}, old(Now()), Now()) ==> r.Fresh?
      ensures Placid() && (open[d], Temporary(name)) !in old(entries) && (open[d], Temporary(name)) !in avoid ==>
        disturbances == old(disturbances)
    {
      hide Sound, Others, Confined, AheadOf, Tame, Plain, Harms, Fails, Numbered, TemporaryName, Placid;
      var a := Begin();
      ghost var s := old(Now());
      PlacidToken(s.tick);
      PlacidNames(s, Now());
      var name' := TemporaryName(name, a.token);
      var k := (open[d], name');
      if Tame() && Ahead(s) { TameCreation(s, open[d], name); }
      if k in avoid || k in entries {
        DisturbedStill(s, Now());
        Disturb();
      }
      if k in entries { return NameTaken; }
      if a.fails { return OpenFailed; }
      CreatedIsConfined(k, s, Now());
      OnlyLost(k, s, Now());
      OursAreEntries(k);
      var f := NewFile(k);
      r := Fresh(f, name');
    }

    /** What is written to a file whose entry has been taken is seen by nobody. */
    method Write(f: int, payload: Data) returns (ok: bool)
      requires Valid() && f in files && files[f] in book.made && files[f] !in book.gone
      modifies `tick, `entries, `foreign, `disturbances, `ours, `lost, `planted, `book
      ensures Valid() && Confined({files[f]}, {}, old(Now()), Now()) && book == old(book)
      ensures ok && files[f] in ours ==> ours[files[f]] == payload
      ensures !ok && files[f] in ours ==>
        ours[files[f]] <= payload && (script(old(tick)).written < |payload| ==> |ours[files[f]]| == script(old(tick)).written)
      ensures Smooth(old(Now()), Now()) ==> ok
      ensures tick == old(tick) + 1 && (ok <==> AllWorked(script, old(tick), tick))
      ensures Placid() ==> disturbances == old(disturbances)
    {
      hide Sound, Others, Confined, Tame, Harms, Fails, Numbered, Placid;
      var a := Begin();
      ok := !a.fails;
      var data := if ok then payload else payload[..if a.written < |payload| then a.written else |payload|];
      var k := files[f];
      ConfinedAnyway(k, {}, old(Now()), Now());
      if k !in ours { return; }
      SoundOne(script, book, Now(), k);
      EnteredSound(script, book, Now(), k, data);
      FilledIsConfined(k, data, old(Now()), Now());
      Enter(k, data, book);
    }

    lemma ConfinedAnyway(k: Key, f: set<Key>, s: State, t: State)
      requires Confined({}, f, s, t)
      ensures Confined({k}, f, s, t)
    {
    }

    /** A hard link never replaces an entry. It links whatever stands under the source name:
        what this program made, or what others have put there after taking it. */
    method Link(source: int, name: string, target: int, name': string) returns (ok: bool, ghost l: Linking)
      requires Valid() && source in open && target in open
      requires (open[source], name) in book.made && (open[source], name) !in book.gone
      modifies `tick, `entries, `foreign, `disturbances, `ours, `lost, `planted, `book
      ensures Valid()
      ensures !ok ==> Passed(old(Now()), Now()) && book == old(book)
      ensures ok ==>
        var s, k, now := (open[source], name), (open[target], name'), Others(script(old(tick)), old(Now()));
        && s in now.entries && k !in now.entries && l == Linking(s, k, old(tick), now.entries[s], Replaced(s, now))
        && Now() == Entered(k, l.data, now) && book == Linked(old(book), [l])
        && Confined({k}, {k}, old(Now()), Now()) && k in ours && ours[k] == l.data
        && (!l.replaced ==> s in old(ours) && l.data == old(ours)[s])
        && (k in old(book.made) && k !in old(book.gone) ==> k in lost)
      ensures Fair({name'}, old(Now()), Now()) && (open[source], name) in old(entries) ==>
        (ok <==> (open[target], name') !in old(entries))
      ensures Placid() ==> disturbances == old(disturbances)
    {
      hide Sound, LinkSound, Others, Confined, Tame, AheadOf, Plain, Harms, Fails, Numbered, Placid;
      var a := Begin();
      ghost var was := old(Now());
      var s, k := (open[source], name), (open[target], name');
      ok := !a.fails && k !in entries && s in entries;
      if Fair({name'}, was, Now()) { LinkFair(s, k, was, Now()); }
      if ok {
        l := Linking(s, k, tick - 1, entries[s], Replaced(s, Now()));
        LinkIsSound(was, s, k, l);
        LinkedIsConfined(k, entries[s], was, Now());
        Enter(k, entries[s], Linked(book, [l]));
      } else {
        l := Linking(s, k, tick - 1, [], false);
      }
    }

    lemma LinkFair(s: Key, k: Key, was: State, now: State)
      requires Confined({}, {}, was, now) && Fair({k.1}, was, now)
      ensures s in was.entries ==> s in now.entries
      ensures k in now.entries <==> k in was.entries
      ensures Smooth(was, now)
    {
      FairNames({k.1}, {}, {}, was, now, s);
      FairNames({k.1}, {}, {}, was, now, k);
    }

    lemma LinkIsSound(was: State, s: Key, k: Key, l: Linking)
      requires Sound(script, book, was) && s in book.made && s !in book.gone
      requires var now := Others(script(was.tick), was); s in now.entries && k !in now.entries
      requires var now := Others(script(was.tick), was); l == Linking(s, k, was.tick, now.entries[s], Replaced(s, now))
      ensures var now := Others(script(was.tick), was);
              && Sound(script, Linked(book, [l]), Entered(k, l.data, now))
              && (!l.replaced ==> s in was.ours && was.ours[s] == l.data)
              && (k in book.made && k !in book.gone ==> k in now.lost)
    {
      var a := script(was.tick);
      var now := Others(a, was);
      OthersKeep(script, book, was);
      EnteredSound(script, book, now, k, l.data);
      OursAreThere(now, s);
      OursAreThere(now, k);
      MadeIsOurs(book, now, s);
      MadeIsOurs(book, now, k);
      if s in a.removed && s in a.added { OthersRefill(a, was, s); }
      assert LinkSound(script, l, Entered(k, l.data, now));
      MoreLinks(script, book, l, Entered(k, l.data, now));
    }

    /** Errors are swallowed. The entry is removed by its name, whoever made it. */
    method SafeUnlink(d: int, name: string) returns (ghost u: Unlink)
      requires Valid() && d in open && (open[d], name) in book.made
      requires (open[d], name) in book.gone ==> (open[d], name) in lost
      modifies `tick, `entries, `foreign, `disturbances, `ours, `lost, `planted, `book, `harmed, `unlinkFailed
      ensures Valid() && Cleared({(open[d], name)}, old(Now()), Now())
      ensures var k, now := (open[d], name), Others(script(old(tick)), old(Now()));
              && u == Unlink(k, old(tick), !script(old(tick)).unlinkFails, Replaced(k, now)) && book == Unlinked(old(book), [u])
              && (harmed <==> old(harmed) || (u.works && u.replaced)) && Now() == (if u.works then Dropped(k, now) else now)
      ensures Placid() ==> disturbances == old(disturbances)
    {
      hide Sound, UnlinkSound, Others, Touched, Cleared, Calm, Tamed, Harms, Fails, Numbered, Placid, Unlinked;
      var a := Begin();
      var k := (open[d], name);
      u := Unlink(k, tick - 1, !a.unlinkFails, Replaced(k, Now()));
      ReplacementIsKnown(old(Now()), k, u);
      DroppedIsCleared(k, old(Now()), Now());
      UnlinkNow(k, a.unlinkFails, u);
    }

    /** The unlink itself: removes what is there under this name. */
    method UnlinkNow(k: Key, fails: bool, ghost u: Unlink)
      requires Valid() && u == Unlink(k, u.at, !fails, Replaced(k, Now())) && (k in foreign ==> k in lost)
      requires Sound(script, Unlinked(book, [u]), if u.works then Dropped(k, Now()) else Now())
      modifies `entries, `foreign, `ours, `book, `harmed, `unlinkFailed
      ensures Valid() && Now() == (if fails then old(Now()) else Dropped(k, old(Now()))) && book == Unlinked(old(book), [u])
      ensures unlinkFailed == (old(unlinkFailed) || fails)
      ensures harmed == (old(harmed) || (!fails && k in old(foreign)))
    {
      hide Sound, Harms, Fails, Numbered, Worked;
      OneMore(book.unlinks, u);
      Mark(u, k in foreign);
      if !fails { Remove(k); }
    }

    method Remove(k: Key)
      modifies `entries, `foreign, `ours
      ensures entries == old(entries) - {k} && foreign == old(foreign) - {k} && ours == old(ours) - {k}
    {
      entries, foreign, ours := entries - {k}, foreign - {k}, ours - {k};
    }

    ghost method Mark(u: Unlink, theirs: bool)
      modifies `book, `harmed, `unlinkFailed
      ensures book == Unlinked(old(book), [u])
      ensures unlinkFailed == (old(unlinkFailed) || !u.works) && harmed == (old(harmed) || (u.works && theirs))
    {
      book := Unlinked(book, [u]);
      if !u.works {
        unlinkFailed := true;
      } else if theirs {
        harmed := true;
      }
    }

    lemma DroppedIsCleared(k: Key, s: State, t: State)
      requires Touched({}, s, t) && (k in t.foreign ==> k in t.lost)
      ensures Cleared({k}, s, t) && Cleared({k}, s, Dropped(k, t))
    {
      if t.lost == {} { Untouched(t.foreign, {k}); }
    }

    /** Right before an unlink of a name of this program, an entry of others under it is a
        replacement. */
    lemma ReplacementIsKnown(was: State, k: Key, u: Unlink)
      requires Sound(script, book, was) && k in book.made && (k in book.gone ==> k in was.lost)
      requires u == Unlink(k, was.tick, !script(was.tick).unlinkFails, Replaced(k, Others(script(was.tick), was)))
      ensures var now := Others(script(was.tick), was);
              && (k in now.foreign ==> k in now.lost)
              && UnlinkSound(script, u, now)
              && Sound(script, Unlinked(book, [u]), if u.works then Dropped(k, now) else now)
    {
      var a := script(was.tick);
      var now := Others(a, was);
      OthersKeep(script, book, was);
      OursAreThere(now, k);
      MadeIsOurs(book, now, k);
      if k in a.removed && k in a.added { OthersRefill(a, was, k); }
      UnlinkedSound(script, book, now, u);
    }
  }
}
