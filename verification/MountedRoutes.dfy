/** The routes of an application, flattened from its routers: which include graphs are
    accepted, and which rows they give. */
module MountedRoutes {
  import opened Ordering
  import opened Outcomes
  import opened Splitting

  /** A router: the file it is in and its name there. */
  type Id = (string, string)

  const METHODS: set<string> := {"GET", "POST", "PUT", "DELETE", "PATCH", "OPTIONS", "HEAD"}

  type Verb = m: string | m in METHODS witness "GET"

  datatype Item = Route(verb: Verb, suffix: string, operations: seq<string>) | Include(child: Id, prefix: string)

  datatype Router = Router(prefix: string, items: seq<Item>)

  type Graph = map<Id, Router>

  datatype Row = Row(verb: Verb, path: string, operations: seq<string>)

  // ---------------------------------------------------------------- paths

  predicate WordChar(c: char) {
    'A' <= c <= 'Z' || 'a' <= c <= 'z' || '0' <= c <= '9' || c == '_'
  }

  predicate IsSegment(s: string) {
    || (s != [] && forall i :: 0 <= i < |s| ==> WordChar(s[i]) || s[i] == '-')
    || (|s| >= 3 && s[0] == '{' && s[|s| - 1] == '}' && ('A' <= s[1] <= 'Z' || 'a' <= s[1] <= 'z')
        && forall i :: 1 <= i < |s| - 1 ==> WordChar(s[i]))
  }

  /** One or more segments, each a word or a parameter, each after a slash. */
  predicate IsPath(s: string) {
    s != [] && s[0] == '/' && forall i :: 0 <= i < |Split(s[1..], '/')| ==> IsSegment(Split(s[1..], '/')[i])
  }

  predicate IsPrefix(s: string) {
    s == "" || (IsPath(s) && '{' !in s)
  }

  /** A segment as it is written in a route: a word, or a parameter with its name. */
  datatype Part = Word(text: string) | Parameter(name: string)

  predicate Letter(c: char) {
    'A' <= c <= 'Z' || 'a' <= c <= 'z'
  }

  predicate Proper(p: Part) {
    match p
    case Word(text) => text != "" && forall c :: c in text ==> Letter(c) || '0' <= c <= '9' || c in "_-"
    case Parameter(name) => name != "" && Letter(name[0]) && forall c :: c in name ==> Letter(c) || '0' <= c <= '9' || c == '_'
  }

  function Spelled(p: Part): string {
    if p.Word? then p.text else ['{'] + p.name + ['}']
  }

  function AllSpelled(parts: seq<Part>): (r: seq<string>)
    ensures |r| == |parts| && forall i :: 0 <= i < |parts| ==> r[i] == Spelled(parts[i])
  {
    seq(|parts|, i requires 0 <= i < |parts| => Spelled(parts[i]))
  }

  lemma ProperIsSegment(p: Part)
    requires Proper(p)
    ensures IsSegment(Spelled(p)) && '/' !in Spelled(p)
  {
    var s := Spelled(p);
    if p.Word? {
      assert forall i :: 0 <= i < |s| ==> s[i] in p.text;
    } else {
      assert forall i :: 1 <= i < |s| - 1 ==> s[i] == p.name[i - 1] && s[i] in p.name;
    }
  }

  lemma SegmentIsSpelled(s: string) returns (p: Part)
    requires IsSegment(s)
    ensures Proper(p) && Spelled(p) == s
  {
    if s[0] == '{' {
      p := Parameter(s[1..|s| - 1]);
      assert s == ['{'] + p.name + ['}'];
    } else {
      p := Word(s);
    }
  }

  /** Paths are exactly the words and named parameters, at least one, each after a slash. */
  lemma PathsAreSpelled(s: string)
    ensures IsPath(s) <==>
      exists parts: seq<Part> :: parts != [] && (forall p :: p in parts ==> Proper(p)) && s == ['/'] + Join(AllSpelled(parts), '/')
  {
    hide IsSegment, Proper, Spelled;
    if IsPath(s) {
      var parts := AllRead(Split(s[1..], '/'));
      SplitThenJoin(s[1..], '/');
      assert AllSpelled(parts) == Split(s[1..], '/');
      assert s == ['/'] + Join(AllSpelled(parts), '/');
    }
    forall parts: seq<Part> | parts != [] && (forall p :: p in parts ==> Proper(p)) && s == ['/'] + Join(AllSpelled(parts), '/')
      ensures IsPath(s)
    {
      var segments := AllSpelled(parts);
      forall i | 0 <= i < |segments| ensures IsSegment(segments[i]) && '/' !in segments[i] { ProperIsSegment(parts[i]); }
      JoinThenSplit(segments, '/');
      assert s[1..] == Join(segments, '/');
    }
  }

  lemma {:induction false} AllRead(segments: seq<string>) returns (parts: seq<Part>)
    requires forall i :: 0 <= i < |segments| ==> IsSegment(segments[i])
    ensures |parts| == |segments| && forall i :: 0 <= i < |parts| ==> Proper(parts[i]) && Spelled(parts[i]) == segments[i]
  {
    hide IsSegment, Proper, Spelled;
    parts := [];
    if segments != [] {
      var front := AllRead(segments[..|segments| - 1]);
      var last := SegmentIsSpelled(segments[|segments| - 1]);
      parts := front + [last];
    }
  }

  predicate Distinct(ops: seq<string>) {
    forall i, j :: 0 <= i < j < |ops| ==> ops[i] != ops[j]
  }

  function Name(s: string): string {
    s
  }

  // ---------------------------------------------------------------- one router

  predicate ItemFine(item: Item, active: string) {
    match item
    case Route(_, suffix, ops) => (suffix == "" || IsPath(suffix)) && IsPath(active + suffix) && Distinct(ops)
    case Include(_, prefix) => IsPrefix(prefix)
  }

  /** A router is known and locally well formed under what it inherits. */
  predicate Fine(g: Graph, id: Id, inherited: string) {
    id in g && IsPrefix(g[id].prefix)
    && forall k :: 0 <= k < |g[id].items| ==> ItemFine(g[id].items[k], inherited + g[id].prefix)
  }

  /** A prefix is empty or made of words only. */
  lemma PrefixesAreWords(s: string)
    ensures IsPrefix(s) <==>
      || s == ""
      || exists parts: seq<Part> ::
           parts != [] && (forall p :: p in parts ==> p.Word? && Proper(p)) && s == ['/'] + Join(AllSpelled(parts), '/')
  {
    hide IsPath;
    PathsAreSpelled(s);
    if s != "" && IsPrefix(s) {
      var parts: seq<Part> :| parts != [] && (forall p :: p in parts ==> Proper(p)) && s == ['/'] + Join(AllSpelled(parts), '/');
      forall p | p in parts ensures p.Word? {
        var i :| 0 <= i < |parts| && parts[i] == p;
        InJoin(AllSpelled(parts), i);
        BraceInParameter(p);
      }
    }
    forall parts: seq<Part> | parts != [] && (forall p :: p in parts ==> p.Word? && Proper(p)) && s == ['/'] + Join(AllSpelled(parts), '/')
      ensures '{' !in s
    {
      forall i | 0 <= i < |parts| ensures '{' !in AllSpelled(parts)[i] { assert parts[i] in parts; }
      OnlyInParts(AllSpelled(parts), '{');
    }
  }

  lemma BraceInParameter(p: Part)
    ensures p.Parameter? ==> '{' in Spelled(p)
  {
    if p.Parameter? {
      assert Spelled(p)[0] == '{';
    }
  }

  lemma {:induction false} InJoin(parts: seq<string>, i: nat)
    requires i < |parts|
    ensures forall c :: c in parts[i] ==> c in Join(parts, '/')
  {
    if i > 0 {
      InJoin(parts[1..], i - 1);
    }
  }

  lemma {:induction false} OnlyInParts(parts: seq<string>, c: char)
    requires parts != [] && c != '/' && forall i :: 0 <= i < |parts| ==> c !in parts[i]
    ensures c !in Join(parts, '/')
  {
    if |parts| > 1 {
      OnlyInParts(parts[1..], c);
    }
  }

  /** Which statements a router may hold: a route whose suffix is empty or a path, whose
      whole path is one, and whose operations differ; and an include with a prefix. */
  lemma ItemsAreExact(item: Item, active: string)
    ensures ItemFine(item, active) <==>
      match item
      case Route(_, suffix, ops) =>
        && IsPath(active + suffix) && (suffix != "" ==> IsPath(suffix))
        && forall i, j :: 0 <= i < |ops| && 0 <= j < |ops| && ops[i] == ops[j] ==> i == j
      case Include(_, prefix) => prefix != "" ==> IsPath(prefix) && '{' !in prefix
  {
    hide IsPath;
  }

  // ---------------------------------------------------------------- the flattening

  function Unopened(g: Graph, stack: set<Id>): nat {
    |g.Keys - stack|
  }

  lemma RestShrinks(g: Graph, stack: set<Id>, id: Id)
    requires id in g && id !in stack
    ensures Unopened(g, stack + {id}) < Unopened(g, stack)
  {
    assert g.Keys - (stack + {id}) == (g.Keys - stack) - {id};
  }

  function RowOf(r: Item, active: string): Row
    requires r.Route?
  {
    Row(r.verb, active + r.suffix, Sorted(r.operations, Name))
  }

  /** The rows below one router, in the order of its statements. None for a router that is
      open already, unknown or malformed. */
  ghost function Flatten(g: Graph, id: Id, inherited: string, stack: set<Id>): Option<seq<Row>>
    decreases Unopened(g, stack), 1, 0
  {
    if id in stack || id !in g || !IsPrefix(g[id].prefix) then None
    else
      RestShrinks(g, stack, id);
      FlattenItems(g, g[id].items, inherited + g[id].prefix, stack + {id})
  }

  ghost function FlattenItems(g: Graph, items: seq<Item>, active: string, stack: set<Id>): Option<seq<Row>>
    decreases Unopened(g, stack), 2, |items|
  {
    if items == [] then Some([])
    else
      var front := FlattenItems(g, items[..|items| - 1], active, stack);
      var item := items[|items| - 1];
      if front == None || !ItemFine(item, active) then None
      else if item.Route? then Some(front.value + [RowOf(item, active)])
      else
        var below := Flatten(g, item.child, active + item.prefix, stack);
        if below == None then None else Some(front.value + below.value)
  }

  // ---------------------------------------------------------------- exactly the acyclic graphs

  /** Following includes, given by their positions, to a router and what it inherits. */
  ghost function Ends(g: Graph, id: Id, inherited: string, walk: seq<nat>): Option<(Id, string)>
    decreases |walk|
  {
    if walk == [] then Some((id, inherited))
    else if id in g && walk[0] < |g[id].items| && g[id].items[walk[0]].Include? then
      var item := g[id].items[walk[0]];
      Ends(g, item.child, inherited + g[id].prefix + item.prefix, walk[1..])
    else None
  }

  /** The routers a walk leaves. */
  ghost function Passed(g: Graph, id: Id, walk: seq<nat>): set<Id>
    decreases |walk|
  {
    if walk == [] then {}
    else if id in g && walk[0] < |g[id].items| && g[id].items[walk[0]].Include? then
      {id} + Passed(g, g[id].items[walk[0]].child, walk[1..])
    else {}
  }

  ghost predicate WalkFine(g: Graph, id: Id, inherited: string, stack: set<Id>, walk: seq<nat>) {
    var end := Ends(g, id, inherited, walk);
    end.Some? ==> Fine(g, end.value.0, end.value.1) && end.value.0 !in stack && end.value.0 !in Passed(g, id, walk)
  }

  /** Every router that includes lead to is well formed where it is mounted, and is not
      one of those passed on the way, nor one of these. */
  ghost predicate SoundFrom(g: Graph, id: Id, inherited: string, stack: set<Id>) {
    forall walk: seq<nat> :: WalkFine(g, id, inherited, stack, walk)
  }

  ghost predicate ItemsSound(g: Graph, items: seq<Item>, active: string, stack: set<Id>) {
    forall k :: 0 <= k < |items| && items[k].Include? ==> SoundFrom(g, items[k].child, active + items[k].prefix, stack)
  }

  lemma Step(g: Graph, id: Id, inherited: string, stack: set<Id>, k: nat, walk: seq<nat>)
    requires id in g && k < |g[id].items| && g[id].items[k].Include?
    ensures var item := g[id].items[k];
            && Ends(g, id, inherited, [k] + walk) == Ends(g, item.child, inherited + g[id].prefix + item.prefix, walk)
            && Passed(g, id, [k] + walk) == {id} + Passed(g, item.child, walk)
  {
    assert ([k] + walk)[1..] == walk;
  }

  lemma SoundUnfolds(g: Graph, id: Id, inherited: string, stack: set<Id>)
    ensures SoundFrom(g, id, inherited, stack) <==>
      id !in stack && Fine(g, id, inherited) && ItemsSound(g, g[id].items, inherited + g[id].prefix, stack + {id})
  {
    if SoundFrom(g, id, inherited, stack) {
      assert WalkFine(g, id, inherited, stack, []);
      forall k | 0 <= k < |g[id].items| && g[id].items[k].Include?
        ensures SoundFrom(g, g[id].items[k].child, inherited + g[id].prefix + g[id].items[k].prefix, stack + {id})
      {
        forall walk: seq<nat>
          ensures WalkFine(g, g[id].items[k].child, inherited + g[id].prefix + g[id].items[k].prefix, stack + {id}, walk)
        {
          assert WalkFine(g, id, inherited, stack, [k] + walk);
          Step(g, id, inherited, stack, k, walk);
        }
      }
    }
    if id !in stack && Fine(g, id, inherited) && ItemsSound(g, g[id].items, inherited + g[id].prefix, stack + {id}) {
      forall walk: seq<nat> ensures WalkFine(g, id, inherited, stack, walk) {
        if walk != [] && Ends(g, id, inherited, walk).Some? {
          var k := walk[0];
          assert walk == [k] + walk[1..];
          Step(g, id, inherited, stack, k, walk[1..]);
          assert WalkFine(g, g[id].items[k].child, inherited + g[id].prefix + g[id].items[k].prefix, stack + {id}, walk[1..]);
        }
      }
    }
  }

  /** A router is flattened exactly if no walk over its includes comes back to a router it
      has passed, and every router on the way is well formed where it is mounted. */
  lemma {:induction false} FlattenedIffSound(g: Graph, id: Id, inherited: string, stack: set<Id>)
    ensures Flatten(g, id, inherited, stack).Some? <==> SoundFrom(g, id, inherited, stack)
    decreases Unopened(g, stack), 1, 0
  {
    SoundUnfolds(g, id, inherited, stack);
    if id !in stack && id in g && IsPrefix(g[id].prefix) {
      RestShrinks(g, stack, id);
      ItemsFlattenedIffSound(g, g[id].items, inherited + g[id].prefix, stack + {id});
    }
  }

  lemma {:induction false} ItemsFlattenedIffSound(g: Graph, items: seq<Item>, active: string, stack: set<Id>)
    ensures FlattenItems(g, items, active, stack).Some? <==>
      (forall k :: 0 <= k < |items| ==> ItemFine(items[k], active)) && ItemsSound(g, items, active, stack)
    decreases Unopened(g, stack), 2, |items|
  {
    hide SoundFrom, ItemFine;
    if items != [] {
      var front, item := items[..|items| - 1], items[|items| - 1];
      ItemsFlattenedIffSound(g, front, active, stack);
      if item.Include? {
        FlattenedIffSound(g, item.child, active + item.prefix, stack);
      }
      assert ItemsSound(g, items, active, stack) <==>
          ItemsSound(g, front, active, stack) && (item.Include? ==> SoundFrom(g, item.child, active + item.prefix, stack)) by {
        assert forall k :: 0 <= k < |front| ==> items[k] == front[k];
      }
    }
  }

  // ---------------------------------------------------------------- exactly the mounted routes

  /** A trail: the positions of includes, and last of a route. */
  ghost predicate IsTrail(g: Graph, id: Id, trail: seq<nat>)
    decreases |trail|
  {
    && trail != [] && id in g && trail[0] < |g[id].items|
    && match g[id].items[trail[0]]
       case Route(_, _, _) => |trail| == 1
       case Include(child, _) => IsTrail(g, child, trail[1..])
  }

  /** The row a trail stands for: the prefixes on the way, one after the other, and the
      suffix of the route. */
  ghost function Mounted(g: Graph, id: Id, inherited: string, trail: seq<nat>): Row
    requires IsTrail(g, id, trail)
    decreases |trail|
  {
    var active := inherited + g[id].prefix;
    match g[id].items[trail[0]]
    case Route(_, _, _) => RowOf(g[id].items[trail[0]], active)
    case Include(child, prefix) => Mounted(g, child, active + prefix, trail[1..])
  }

  ghost function Under(k: nat, trails: seq<seq<nat>>): (r: seq<seq<nat>>)
    ensures |r| == |trails| && forall i :: 0 <= i < |r| ==> r[i] == [k] + trails[i]
  {
    seq(|trails|, i requires 0 <= i < |trails| => [k] + trails[i])
  }

  /** The trails below a router, in the order of the statements. */
  ghost function Trails(g: Graph, id: Id, stack: set<Id>): seq<seq<nat>>
    decreases Unopened(g, stack), 1, 0
  {
    if id in stack || id !in g then []
    else
      RestShrinks(g, stack, id);
      ItemTrails(g, g[id].items, stack + {id})
  }

  ghost function ItemTrails(g: Graph, items: seq<Item>, stack: set<Id>): seq<seq<nat>>
    decreases Unopened(g, stack), 2, |items|
  {
    if items == [] then []
    else
      var k, item := |items| - 1, items[|items| - 1];
      ItemTrails(g, items[..k], stack) + if item.Route? then [[k]] else Under(k, Trails(g, item.child, stack))
  }

  /** A trail through one of the first items of a router. */
  ghost predicate ThroughItems(g: Graph, items: seq<Item>, trail: seq<nat>) {
    && trail != [] && trail[0] < |items|
    && match items[trail[0]]
       case Route(_, _, _) => |trail| == 1
       case Include(child, _) => IsTrail(g, child, trail[1..])
  }

  ghost function MountedItem(g: Graph, items: seq<Item>, active: string, trail: seq<nat>): Row
    requires ThroughItems(g, items, trail)
  {
    match items[trail[0]]
    case Route(_, _, _) => RowOf(items[trail[0]], active)
    case Include(child, prefix) => Mounted(g, child, active + prefix, trail[1..])
  }

  /** The rows are the mounted routes of the trails, one for one. */
  ghost predicate RowsOfTrails(g: Graph, id: Id, inherited: string, trails: seq<seq<nat>>, rows: seq<Row>) {
    |rows| == |trails|
    && forall i :: 0 <= i < |rows| ==> IsTrail(g, id, trails[i]) && rows[i] == Mounted(g, id, inherited, trails[i])
  }

  ghost predicate RowsOfItemTrails(g: Graph, items: seq<Item>, active: string, trails: seq<seq<nat>>, rows: seq<Row>) {
    |rows| == |trails|
    && forall i :: 0 <= i < |rows| ==> ThroughItems(g, items, trails[i]) && rows[i] == MountedItem(g, items, active, trails[i])
  }

  lemma {:induction false} RowsMatchTrails(g: Graph, id: Id, inherited: string, stack: set<Id>)
    requires Flatten(g, id, inherited, stack).Some?
    ensures RowsOfTrails(g, id, inherited, Trails(g, id, stack), Flatten(g, id, inherited, stack).value)
    decreases Unopened(g, stack), 1, 0
  {
    RestShrinks(g, stack, id);
    ItemRowsMatchTrails(g, g[id].items, inherited + g[id].prefix, stack + {id});
  }

  lemma MoreItems(g: Graph, items: seq<Item>, active: string, trails: seq<seq<nat>>, rows: seq<Row>)
    requires items != [] && RowsOfItemTrails(g, items[..|items| - 1], active, trails, rows)
    ensures RowsOfItemTrails(g, items, active, trails, rows)
  {
  }

  lemma UnderInclude(g: Graph, items: seq<Item>, active: string, trails: seq<seq<nat>>, rows: seq<Row>)
    requires items != [] && items[|items| - 1].Include?
    requires RowsOfTrails(g, items[|items| - 1].child, active + items[|items| - 1].prefix, trails, rows)
    ensures RowsOfItemTrails(g, items, active, Under(|items| - 1, trails), rows)
  {
    var under := Under(|items| - 1, trails);
    forall i | 0 <= i < |rows| ensures ThroughItems(g, items, under[i]) && rows[i] == MountedItem(g, items, active, under[i]) {
      assert under[i][1..] == trails[i];
    }
  }

  lemma {:induction false} ItemRowsMatchTrails(g: Graph, items: seq<Item>, active: string, stack: set<Id>)
    requires FlattenItems(g, items, active, stack).Some?
    ensures RowsOfItemTrails(g, items, active, ItemTrails(g, items, stack), FlattenItems(g, items, active, stack).value)
    decreases Unopened(g, stack), 2, |items|
  {
    if items != [] {
      var k, item := |items| - 1, items[|items| - 1];
      ItemRowsMatchTrails(g, items[..k], active, stack);
      hide RowsOfItemTrails, RowsOfTrails;
      var trails, rows := ItemTrails(g, items[..k], stack), FlattenItems(g, items[..k], active, stack).value;
      MoreItems(g, items, active, trails, rows);
      if item.Include? {
        RowsMatchTrails(g, item.child, active + item.prefix, stack);
        var below, under := Flatten(g, item.child, active + item.prefix, stack).value, Trails(g, item.child, stack);
        UnderInclude(g, items, active, under, below);
        BothMatch(g, items, active, trails, rows, Under(k, under), below);
      } else {
        RouteMatches(g, items, active);
        BothMatch(g, items, active, trails, rows, [[k]], [RowOf(item, active)]);
      }
    }
  }

  lemma BothMatch(g: Graph, items: seq<Item>, active: string, trails: seq<seq<nat>>, rows: seq<Row>, more: seq<seq<nat>>, below: seq<Row>)
    requires RowsOfItemTrails(g, items, active, trails, rows) && RowsOfItemTrails(g, items, active, more, below)
    ensures RowsOfItemTrails(g, items, active, trails + more, rows + below)
  {
    hide ThroughItems, MountedItem;
  }

  lemma RouteMatches(g: Graph, items: seq<Item>, active: string)
    requires items != [] && items[|items| - 1].Route?
    ensures RowsOfItemTrails(g, items, active, [[|items| - 1]], [RowOf(items[|items| - 1], active)])
  {
  }

  /** No route that is mounted is missing. */
  lemma {:induction false} EveryTrailIsListed(g: Graph, id: Id, inherited: string, stack: set<Id>, trail: seq<nat>)
    requires Flatten(g, id, inherited, stack).Some? && IsTrail(g, id, trail)
    ensures trail in Trails(g, id, stack)
    decreases Unopened(g, stack), 1, 0
  {
    RestShrinks(g, stack, id);
    EveryItemTrailIsListed(g, g[id].items, inherited + g[id].prefix, stack + {id}, trail);
  }

  lemma {:induction false} EveryItemTrailIsListed(g: Graph, items: seq<Item>, active: string, stack: set<Id>, trail: seq<nat>)
    requires FlattenItems(g, items, active, stack).Some? && ThroughItems(g, items, trail)
    ensures trail in ItemTrails(g, items, stack)
    decreases Unopened(g, stack), 2, |items|
  {
    var k, item := |items| - 1, items[|items| - 1];
    if trail[0] < k {
      EveryItemTrailIsListed(g, items[..k], active, stack, trail);
    } else if item.Route? {
      assert trail == [k];
    } else {
      EveryTrailIsListed(g, item.child, active + item.prefix, stack, trail[1..]);
      var below := Trails(g, item.child, stack);
      var i :| 0 <= i < |below| && below[i] == trail[1..];
      assert Under(k, below)[i] == trail;
    }
  }

  /** The order of the statements, outermost first. */
  predicate Earlier(t: seq<nat>, u: seq<nat>) {
    t != [] && u != [] && (t[0] < u[0] || (t[0] == u[0] && Earlier(t[1..], u[1..])))
  }

  ghost predicate InOrder(trails: seq<seq<nat>>) {
    forall i, j :: 0 <= i < j < |trails| ==> Earlier(trails[i], trails[j])
  }

  lemma {:induction false} TrailsInOrder(g: Graph, id: Id, stack: set<Id>)
    ensures InOrder(Trails(g, id, stack))
    decreases Unopened(g, stack), 1, 0
  {
    if id !in stack && id in g {
      RestShrinks(g, stack, id);
      ItemTrailsInOrder(g, g[id].items, stack + {id});
    }
  }

  lemma {:induction false} ItemTrailsInOrder(g: Graph, items: seq<Item>, stack: set<Id>)
    ensures InOrder(ItemTrails(g, items, stack))
    ensures forall t :: t in ItemTrails(g, items, stack) ==> t != [] && t[0] < |items|
    decreases Unopened(g, stack), 2, |items|
  {
    if items != [] {
      var k, item := |items| - 1, items[|items| - 1];
      ItemTrailsInOrder(g, items[..k], stack);
      if item.Include? {
        TrailsInOrder(g, item.child, stack);
        var below := Trails(g, item.child, stack);
        forall i, j | 0 <= i < j < |below| ensures Earlier(Under(k, below)[i], Under(k, below)[j]) {
          assert Under(k, below)[i][1..] == below[i] && Under(k, below)[j][1..] == below[j];
        }
      }
    }
  }

  lemma {:induction false} NeverEarlierThanItself(t: seq<nat>)
    ensures !Earlier(t, t)
  {
    if t != [] {
      NeverEarlierThanItself(t[1..]);
    }
  }

  /** Flattening is the mount semantics: of an accepted router it lists every mounted route
      once, and nothing else. */
  lemma FlattenIsMounting(g: Graph, id: Id, rows: seq<Row>)
    requires Flatten(g, id, "", {}) == Some(rows)
    ensures var trails := Trails(g, id, {});
            && RowsOfTrails(g, id, "", trails, rows)
            && (forall trail :: trail in trails <==> IsTrail(g, id, trail))
            && forall i, j :: 0 <= i < j < |trails| ==> trails[i] != trails[j]
  {
    var trails := Trails(g, id, {});
    RowsMatchTrails(g, id, "", {});
    forall trail | IsTrail(g, id, trail) ensures trail in trails {
      EveryTrailIsListed(g, id, "", {}, trail);
    }
    TrailsInOrder(g, id, {});
    forall i, j | 0 <= i < j < |trails| ensures trails[i] != trails[j] {
      NeverEarlierThanItself(trails[i]);
    }
  }

  // ---------------------------------------------------------------- the inventory

  /** Where the first closing brace of s is. */
  function Closing(s: string): (j: nat)
    ensures j <= |s| && (j < |s| ==> s[j] == '}') && forall i :: 0 <= i < j ==> s[i] != '}'
  {
    if s == [] || s[0] == '}' then 0 else 1 + Closing(s[1..])
  }

  /** A path with the names of its parameters erased. */
  function Erased(s: string): string
    decreases |s|
  {
    if s == [] then []
    else if s[0] == '{' && 2 <= Closing(s) < |s| then "{}" + Erased(s[Closing(s) + 1..])
    else [s[0]] + Erased(s[1..])
  }

  /** Segments that are parameters. */
  predicate IsParameter(s: string) {
    s != [] && s[0] == '{'
  }

  function ErasedSegment(s: string): string {
    if IsParameter(s) then "{}" else s
  }

  function ErasedSegments(parts: seq<string>): (r: seq<string>)
    ensures |r| == |parts| && forall i :: 0 <= i < |parts| ==> r[i] == ErasedSegment(parts[i])
  {
    seq(|parts|, i requires 0 <= i < |parts| => ErasedSegment(parts[i]))
  }

  lemma {:induction false} ErasedWord(w: string, rest: string)
    requires '{' !in w
    ensures Erased(w + rest) == w + Erased(rest)
  {
    hide Erased;
    if w == [] {
      assert w + rest == rest;
    } else {
      ErasedWord(w[1..], rest);
      ErasedCharacter(w + rest);
      assert (w + rest)[1..] == w[1..] + rest && w == [w[0]] + w[1..];
    }
  }

  lemma ErasedCharacter(s: string)
    requires s != [] && s[0] != '{'
    ensures Erased(s) == [s[0]] + Erased(s[1..])
  {
  }

  lemma {:induction false} ClosingAfter(w: string, rest: string)
    requires '}' !in w
    ensures Closing(w + ['}'] + rest) == |w|
  {
    var whole := w + ['}'] + rest;
    if w != [] {
      ClosingAfter(w[1..], rest);
      assert whole[1..] == w[1..] + ['}'] + rest;
    }
  }

  lemma SegmentErased(s: string, rest: string)
    requires IsSegment(s)
    ensures Erased(s + rest) == ErasedSegment(s) + Erased(rest)
  {
    if IsParameter(s) {
      var w := s[..|s| - 1];
      assert s == w + ['}'];
      assert forall i :: 0 <= i < |w| ==> w[i] != '}';
      ClosingAfter(w, rest);
      assert s + rest == w + ['}'] + rest;
      assert (s + rest)[|s|..] == rest;
    } else {
      ErasedWord(s, rest);
    }
  }

  lemma {:induction false} SegmentsErased(parts: seq<string>)
    requires parts != [] && forall i :: 0 <= i < |parts| ==> IsSegment(parts[i])
    ensures Erased(Join(parts, '/')) == Join(ErasedSegments(parts), '/')
  {
    hide IsSegment, Erased, ErasedSegment;
    var first, rest := parts[0], parts[1..];
    if rest == [] {
      OneErased(first);
    } else {
      SegmentsErased(rest);
      ErasedBefore(first, Join(rest, '/'));
      assert Join(parts, '/') == first + ['/'] + Join(rest, '/');
      assert ErasedSegments(parts)[1..] == ErasedSegments(rest);
    }
  }

  lemma OneErased(s: string)
    requires IsSegment(s)
    ensures Erased(s) == ErasedSegment(s)
  {
    hide IsSegment, ErasedSegment;
    SegmentErased(s, "");
    assert s + "" == s && Erased("") == "";
  }

  lemma ErasedBefore(s: string, rest: string)
    requires IsSegment(s)
    ensures Erased(s + ['/'] + rest) == ErasedSegment(s) + ['/'] + Erased(rest)
  {
    hide IsSegment, ErasedSegment, Erased;
    SegmentErased(s, ['/'] + rest);
    ErasedWord(['/'], rest);
    assert s + ['/'] + rest == s + (['/'] + rest);
    assert ErasedSegment(s) + (['/'] + Erased(rest)) == ErasedSegment(s) + ['/'] + Erased(rest);
  }

  /** Two paths are the same once the names of their parameters are erased exactly if they
      agree segment by segment, where any parameter agrees with any other. */
  lemma SamePattern(p: string, q: string)
    requires IsPath(p) && IsPath(q)
    ensures var s, t := Split(p[1..], '/'), Split(q[1..], '/');
            Erased(p) == Erased(q) <==>
              |s| == |t| && forall i :: 0 <= i < |s| ==> s[i] == t[i] || (IsParameter(s[i]) && IsParameter(t[i]))
  {
    hide IsSegment;
    var s, t := Split(p[1..], '/'), Split(q[1..], '/');
    PathErased(p);
    PathErased(q);
    var es, et := ErasedSegments(s), ErasedSegments(t);
    forall i | 0 <= i < |s| ensures '/' !in es[i] && (s[i] == "{}" ==> IsParameter(s[i])) { NoSeparatorInParts(p[1..], '/'); }
    forall i | 0 <= i < |t| ensures '/' !in et[i] { NoSeparatorInParts(q[1..], '/'); }
    if Erased(p) == Erased(q) {
      assert Join(es, '/') == Join(et, '/') by { assert Erased(p)[1..] == Join(es, '/') && Erased(q)[1..] == Join(et, '/'); }
      JoinThenSplit(es, '/');
      JoinThenSplit(et, '/');
      forall i | 0 <= i < |s| ensures s[i] == t[i] || (IsParameter(s[i]) && IsParameter(t[i])) {
        assert es[i] == et[i];
      }
    }
    if |s| == |t| && forall i :: 0 <= i < |s| ==> s[i] == t[i] || (IsParameter(s[i]) && IsParameter(t[i])) {
      assert es == et;
    }
  }

  lemma PathErased(p: string)
    requires IsPath(p)
    ensures Erased(p) == ['/'] + Join(ErasedSegments(Split(p[1..], '/')), '/')
  {
    SegmentsErased(Split(p[1..], '/'));
    SplitThenJoin(p[1..], '/');
    ErasedWord(['/'], p[1..]);
    assert p == ['/'] + p[1..];
  }

  function ClashKey(row: Row): (string, string) {
    (row.verb, Erased(row.path))
  }

  /** No two rows have the same method and the same path up to parameter names. */
  ghost predicate NoClash(rows: seq<Row>) {
    forall i, j :: 0 <= i < j < |rows| ==> ClashKey(rows[i]) != ClashKey(rows[j])
  }

  const BELOW_ALL := '\U{0000}'

  /** A text that orders rows by method and then by path. */
  function RowKey(row: Row): string {
    row.verb + [BELOW_ALL] + row.path
  }

  lemma SeparatorSplits(a: string, b: string, c: string, d: string)
    requires BELOW_ALL !in a && BELOW_ALL !in c && a + [BELOW_ALL] + b == c + [BELOW_ALL] + d
    ensures a == c && b == d
  {
    var s := a + [BELOW_ALL] + b;
    assert s[|a|] == BELOW_ALL && s[|c|] == BELOW_ALL;
    assert a == s[..|a|] && c == s[..|c|] && b == s[|a| + 1..] && d == s[|c| + 1..];
  }

  lemma KeyDetermines(row: Row, other: Row)
    requires RowKey(row) == RowKey(other)
    ensures row.verb == other.verb && row.path == other.path
  {
    SeparatorSplits(row.verb, row.path, other.verb, other.path);
  }

  lemma NoClashNoSameKey(rows: seq<Row>)
    requires NoClash(rows)
    ensures DistinctKeys(rows, RowKey)
  {
    hide RowKey, Erased;
    forall i, j | 0 <= i < j < |rows| ensures RowKey(rows[i]) != RowKey(rows[j]) {
      assert ClashKey(rows[i]) != ClashKey(rows[j]);
      if RowKey(rows[i]) == RowKey(rows[j]) {
        KeyDetermines(rows[i], rows[j]);
      }
    }
  }

  lemma {:induction false} FailureStays(g: Graph, items: seq<Item>, k: nat, active: string, stack: set<Id>)
    requires k <= |items| && FlattenItems(g, items[..k], active, stack) == None
    ensures FlattenItems(g, items, active, stack) == None
  {
    if k == |items| {
      assert items[..k] == items;
    } else {
      var front := items[..|items| - 1];
      assert front[..k] == items[..k];
      FailureStays(g, front, k, active, stack);
    }
  }

  lemma NextItem(g: Graph, items: seq<Item>, k: nat, active: string, stack: set<Id>)
    requires k < |items| && FlattenItems(g, items[..k], active, stack).Some?
    ensures var front, item := FlattenItems(g, items[..k], active, stack).value, items[k];
            FlattenItems(g, items[..k + 1], active, stack) ==
            if !ItemFine(item, active) then None
            else if item.Route? then Some(front + [RowOf(item, active)])
            else
              var below := Flatten(g, item.child, active + item.prefix, stack);
              if below == None then None else Some(front + below.value)
  {
    hide ItemFine;
    assert items[..k + 1][..k] == items[..k];
  }

  class MountedInventory {
    const graph: Graph
    var stack: set<Id>

    constructor (graph: Graph)
      ensures this.graph == graph && stack == {}
    {
      this.graph, stack := graph, {};
    }

    /** Collects the rows below a router. The stack of open routers is as before when it
        succeeds. */
    method Collect(id: Id, inherited: string) returns (r: Option<seq<Row>>)
      modifies this
      ensures r == Flatten(graph, id, inherited, old(stack))
      ensures r.Some? ==> stack == old(stack)
      decreases Unopened(graph, stack)
    {
      if id in stack { return None; }
      stack := stack + {id};
      if id !in graph || !IsPrefix(graph[id].prefix) { return None; }
      RestShrinks(graph, old(stack), id);
      var items, active := graph[id].items, inherited + graph[id].prefix;
      var rows: seq<Row> := [];
      assert items[..0] == [];
      for k := 0 to |items|
        invariant stack == old(stack) + {id}
        invariant FlattenItems(graph, items[..k], active, stack) == Some(rows)
      {
        NextItem(graph, items, k, active, stack);
        var item := items[k];
        if !ItemFine(item, active) {
          FailureStays(graph, items, k + 1, active, stack);
          return None;
        }
        match item {
          case Route(_, _, _) => rows := rows + [RowOf(item, active)];
          case Include(child, prefix) =>
            var below := Collect(child, active + prefix);
            if below == None {
              FailureStays(graph, items, k + 1, active, old(stack) + {id});
              return None;
            }
            rows := rows + below.value;
        }
      }
      assert items[..|items|] == items && old(stack) + {id} - {id} == old(stack);
      stack := stack - {id};
      r := Some(rows);
    }

    /** The inventory of an application: its mounted routes in order of method and path. It
        is refused exactly if the include graph is not sound or two routes clash. */
    method Inventory(root: Id) returns (r: Option<seq<Row>>)
      requires stack == {}
      modifies this
      ensures var rows := Flatten(graph, root, "", {});
              && (rows.Some? <==> SoundFrom(graph, root, "", {})) && (r.Some? <==> rows.Some? && NoClash(rows.value))
              && (r.Some? ==> multiset(r.value) == multiset(rows.value) && StrictlySorted(r.value, RowKey) && NoClash(r.value))
    {
      FlattenedIffSound(graph, root, "", {});
      hide SoundFrom, Flatten, ClashKey, RowKey;
      var rows := Collect(root, "");
      if rows == None { return None; }
      var seen: set<(string, string)> := {};
      for k := 0 to |rows.value|
        invariant forall i, j :: 0 <= i < j < k ==> ClashKey(rows.value[i]) != ClashKey(rows.value[j])
        invariant forall x :: x in seen <==> exists i :: 0 <= i < k && ClashKey(rows.value[i]) == x
      {
        var key := ClashKey(rows.value[k]);
        if key in seen { return None; }
        seen := seen + {key};
      }
      NoClashNoSameKey(rows.value);
      SortedIsPermutation(rows.value, RowKey);
      r := Some(Sorted(rows.value, RowKey));
      NoClashAnyOrder(rows.value, r.value);
    }
  }

  lemma NoClashAnyOrder(rows: seq<Row>, other: seq<Row>)
    requires NoClash(rows) && multiset(rows) == multiset(other) && StrictlySorted(other, RowKey)
    ensures NoClash(other)
  {
    SameMembers(other, rows);
    forall i, j | 0 <= i < j < |other| ensures ClashKey(other[i]) != ClashKey(other[j]) {
      assert other[i] in rows && other[j] in rows;
      LessIsTotal(RowKey(other[i]), RowKey(other[j]));
      var p :| 0 <= p < |rows| && rows[p] == other[i];
      var q :| 0 <= q < |rows| && rows[q] == other[j];
    }
  }
}
