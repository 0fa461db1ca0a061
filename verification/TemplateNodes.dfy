/** The binding as the program does it: in place, on lists and dictionaries of which one
    may stand in several places, as YAML aliases make them. */
module TemplateNodes {
  import opened MappingRewrite
  import opened Outcomes

  /** What stands in one place of a list or dictionary: a literal, or the list or dictionary
      with this identity. */
  datatype Entry = Literal(value: Json) | Object(id: nat)

  datatype Node = Listing(items: seq<Entry>) | Table(names: seq<string>, entries: seq<Entry>)

  function Children(node: Node): seq<Entry> {
    if node.Listing? then node.items else node.entries
  }

  /** Texts, other scalars, and lists of texts that nothing else refers to. */
  predicate Plain(v: Json) {
    v.Scalar? || v.Other? || (v.List? && forall i :: 0 <= i < |v.items| ==> v.items[i].Scalar?)
  }

  /** How far a place is from the literals below it, at most. */
  ghost function Height(e: Entry, rank: seq<nat>): nat {
    if e.Object? && e.id < |rank| then rank[e.id] + 1 else 0
  }

  ghost predicate InHeap(e: Entry, rank: seq<nat>) {
    if e.Literal? then Plain(e.value) else e.id < |rank|
  }

  ghost predicate AllBelow(es: seq<Entry>, rank: seq<nat>, h: nat) {
    forall i :: 0 <= i < |es| ==> InHeap(es[i], rank) && Height(es[i], rank) <= h
  }

  /** Nothing contains itself: what stands in a node has a lower rank. */
  ghost predicate Sound(nodes: seq<Node>, rank: seq<nat>) {
    && |rank| == |nodes|
    && forall n :: 0 <= n < |nodes| ==> SoundNode(nodes[n], rank, rank[n])
  }

  ghost predicate SoundNode(node: Node, rank: seq<nat>, h: nat) {
    AllBelow(Children(node), rank, h) && (node.Table? ==> |node.names| == |node.entries|)
  }

  /** The value of what stands in a place. */
  ghost function Tree(nodes: seq<Node>, rank: seq<nat>, e: Entry): (tree: Json)
    requires Sound(nodes, rank) && InHeap(e, rank)
    decreases Height(e, rank)
  {
    match e
    case Literal(v) => v
    case Object(n) =>
      assert SoundNode(nodes[n], rank, rank[n]);
      match nodes[n]
      case Listing(items) => List(seq(|items|, i requires 0 <= i < |items| => Tree(nodes, rank, items[i])))
      case Table(names, entries) =>
        Dict(seq(|names|, i requires 0 <= i < |names| => Field(names[i], Tree(nodes, rank, entries[i]))))
  }

  // ---------------------------------------------------------------- lookups

  predicate IsLookupNode(node: Node) {
    node.Table? && node.names == [LOOKUP] && |node.entries| == 1
  }

  /** Whether the argument of a lookup names one of the two mappings. */
  function TargetOf(nodes: seq<Node>, argument: Entry): Result<bool, BindError> {
    match argument
    case Literal(v) => Target(v)
    case Object(a) =>
      if a >= |nodes| || nodes[a].Table? || nodes[a].items == [] then Err(Malformed)
      else match nodes[a].items[0]
        case Literal(v) => if v.Scalar? then Ok(BoundField(v.text).Some?) else if v.Other? then Ok(false) else Err(Malformed)
        case Object(_) => Err(Malformed)
  }

  predicate IsTarget(nodes: seq<Node>, n: nat) {
    n < |nodes| && IsLookupNode(nodes[n]) && TargetOf(nodes, nodes[n].entries[0]) == Ok(true)
  }

  function MappingOf(nodes: seq<Node>, n: nat): (m: string)
    requires IsTarget(nodes, n)
    ensures BoundField(m).Some?
  {
    match nodes[n].entries[0]
    case Literal(v) => v.items[0].text
    case Object(a) => nodes[a].items[0].value.text
  }

  predicate IsDeploymentRef(nodes: seq<Node>, e: Entry) {
    e.Object? && e.id < |nodes| && nodes[e.id] == Table(["Ref"], [Literal(Scalar("DeploymentId"))])
  }

  /** What is wrong with a lookup in one of the two mappings. */
  function Fault(nodes: seq<Node>, n: nat): Option<BindError>
    requires IsTarget(nodes, n)
  {
    var field := BoundField(MappingOf(nodes, n)).value;
    match nodes[n].entries[0]
    case Literal(v) => Some(if |v.items| != 3 then Malformed else Unexpected)
    case Object(a) =>
      var items := nodes[a].items;
      if |items| != 3 then Some(Malformed)
      else if !IsDeploymentRef(nodes, items[1]) || items[2] != Literal(Scalar(field)) then Some(Unexpected)
      else None
  }

  function BoundNode(mapping: string): Node
    requires BoundField(mapping).Some?
  {
    Table([LOOKUP], [Literal(List([Scalar(mapping), BOUND, Scalar(BoundField(mapping).value)]))])
  }

  /** A lookup whose argument is malformed, or that is to be bound, is not looked into. */
  predicate Closed(nodes: seq<Node>, n: nat)
    requires n < |nodes|
  {
    IsLookupNode(nodes[n]) && TargetOf(nodes, nodes[n].entries[0]) != Ok(false)
  }

  /** The lookups to be bound that a visit reaches, in order, each as often as it is
      reached. */
  ghost function Reached(nodes: seq<Node>, rank: seq<nat>, e: Entry): seq<nat>
    requires Sound(nodes, rank) && InHeap(e, rank)
    decreases Height(e, rank), 0, 0
  {
    if e.Literal? then []
    else if IsTarget(nodes, e.id) then [e.id]
    else if Closed(nodes, e.id) then []
    else
      assert SoundNode(nodes[e.id], rank, rank[e.id]);
      ReachedAll(nodes, rank, Children(nodes[e.id]), rank[e.id])
  }

  ghost function ReachedAll(nodes: seq<Node>, rank: seq<nat>, es: seq<Entry>, h: nat): seq<nat>
    requires Sound(nodes, rank) && AllBelow(es, rank, h)
    decreases h, 1, |es|
  {
    if es == [] then [] else ReachedAll(nodes, rank, es[..|es| - 1], h) + Reached(nodes, rank, es[|es| - 1])
  }

  /** The first fault a visit would meet if nothing were reached twice. */
  ghost function FirstFault(nodes: seq<Node>, rank: seq<nat>, e: Entry): Option<BindError>
    requires Sound(nodes, rank) && InHeap(e, rank)
    decreases Height(e, rank), 0, 0
  {
    if e.Literal? then None
    else if IsTarget(nodes, e.id) then Fault(nodes, e.id)
    else if Closed(nodes, e.id) then Some(TargetOf(nodes, nodes[e.id].entries[0]).error)
    else
      assert SoundNode(nodes[e.id], rank, rank[e.id]);
      FirstFaultAll(nodes, rank, Children(nodes[e.id]), rank[e.id])
  }

  ghost function FirstFaultAll(nodes: seq<Node>, rank: seq<nat>, es: seq<Entry>, h: nat): Option<BindError>
    requires Sound(nodes, rank) && AllBelow(es, rank, h)
    decreases h, 1, |es|
  {
    if es == [] then None
    else
      var before := FirstFaultAll(nodes, rank, es[..|es| - 1], h);
      if before.Some? then before else FirstFault(nodes, rank, es[|es| - 1])
  }

  // ---------------------------------------------------------------- binding some of the lookups

  ghost function Members(ns: seq<nat>): set<nat> {
    set n | n in ns
  }

  ghost predicate Distinct(ns: seq<nat>) {
    forall i, j :: 0 <= i < j < |ns| ==> ns[i] != ns[j]
  }

  lemma DistinctJoined(a: seq<nat>, b: seq<nat>)
    ensures Distinct(a + b) <==> Distinct(a) && Distinct(b) && Members(a) !! Members(b)
    ensures Members(a + b) == Members(a) + Members(b)
  {
    var ab := a + b;
    if Distinct(ab) {
      forall i, j | 0 <= i < j < |b| ensures b[i] != b[j] { assert ab[|a| + i] != ab[|a| + j]; }
      forall i, j | 0 <= i < |a| && 0 <= j < |b| ensures a[i] != b[j] { assert ab[i] != ab[|a| + j]; }
      forall i, j | 0 <= i < j < |a| ensures a[i] != a[j] { assert ab[i] != ab[j]; }
    }
    if Distinct(a) && Distinct(b) && Members(a) !! Members(b) {
      forall i, j | 0 <= i < j < |ab| ensures ab[i] != ab[j] {
        if i < |a| <= j {
          assert ab[i] in Members(a) && ab[j] in Members(b);
        }
      }
    }
  }

  /** The nodes after these lookups have been bound. */
  ghost function WithBound(nodes: seq<Node>, bound: set<nat>): (g: seq<Node>)
    ensures |g| == |nodes|
  {
    seq(|nodes|, n requires 0 <= n < |nodes| => if n in bound && IsTarget(nodes, n) then BoundNode(MappingOf(nodes, n)) else nodes[n])
  }

  lemma BindingKeepsSound(nodes: seq<Node>, rank: seq<nat>, bound: set<nat>)
    requires Sound(nodes, rank)
    ensures Sound(WithBound(nodes, bound), rank)
  {
    var g := WithBound(nodes, bound);
    forall n | 0 <= n < |g| ensures SoundNode(g[n], rank, rank[n]) {
      assert SoundNode(nodes[n], rank, rank[n]);
    }
  }

  /** Where a lookup goes does not depend on which lookups are bound already. */
  lemma SameTargets(nodes: seq<Node>, bound: set<nat>, n: nat)
    requires n < |nodes|
    ensures var g := WithBound(nodes, bound);
            && IsTarget(g, n) == IsTarget(nodes, n) && Closed(g, n) == Closed(nodes, n)
            && (IsTarget(nodes, n) ==> MappingOf(g, n) == MappingOf(nodes, n))
            && (!IsTarget(nodes, n) ==> g[n] == nodes[n])
            && (IsLookupNode(nodes[n]) && !IsTarget(nodes, n) ==>
                  TargetOf(g, g[n].entries[0]) == TargetOf(nodes, nodes[n].entries[0]))
  {
    var g := WithBound(nodes, bound);
    if IsLookupNode(nodes[n]) && g[n] == nodes[n] && nodes[n].entries[0].Object? && nodes[n].entries[0].id < |nodes| {
      var a := nodes[n].entries[0].id;
      assert g[a] == nodes[a] || (g[a].Table? && nodes[a].Table?);
    }
  }

  /** A bound lookup is a fault; the others have the fault they had. */
  lemma FaultAfter(nodes: seq<Node>, bound: set<nat>, n: nat)
    requires IsTarget(nodes, n)
    ensures IsTarget(WithBound(nodes, bound), n)
    ensures Fault(WithBound(nodes, bound), n) == if n in bound then Some(Unexpected) else Fault(nodes, n)
  {
    var g := WithBound(nodes, bound);
    SameTargets(nodes, bound, n);
    if n !in bound && nodes[n].entries[0].Object? {
      var a := nodes[n].entries[0].id;
      assert g[a] == nodes[a];
      if |nodes[a].items| == 3 && nodes[a].items[1].Object? && nodes[a].items[1].id < |nodes| {
        var x := nodes[a].items[1].id;
        assert g[x] == nodes[x] || (IsLookupNode(g[x]) && IsLookupNode(nodes[x]));
        assert LOOKUP[0] != "Ref"[0];
      }
    }
  }

  lemma BindMore(nodes: seq<Node>, a: set<nat>, b: set<nat>)
    ensures WithBound(WithBound(nodes, a), b) == WithBound(nodes, a + b)
  {
    var g := WithBound(nodes, a);
    forall n | 0 <= n < |nodes| ensures WithBound(g, b)[n] == WithBound(nodes, a + b)[n] {
      SameTargets(nodes, a, n);
    }
  }

  lemma BindNone(nodes: seq<Node>)
    ensures WithBound(nodes, {}) == nodes
  {
  }

  lemma BindOne(nodes: seq<Node>, n: nat)
    requires IsTarget(nodes, n)
    ensures WithBound(nodes, {n}) == nodes[n := BoundNode(MappingOf(nodes, n))]
  {
  }

  lemma {:induction false} ReachedAfter(nodes: seq<Node>, rank: seq<nat>, bound: set<nat>, e: Entry)
    requires Sound(nodes, rank) && Sound(WithBound(nodes, bound), rank) && InHeap(e, rank)
    ensures Reached(WithBound(nodes, bound), rank, e) == Reached(nodes, rank, e)
    decreases Height(e, rank), 0, 0
  {
    if e.Object? {
      SameTargets(nodes, bound, e.id);
      assert SoundNode(nodes[e.id], rank, rank[e.id]);
      if !Closed(nodes, e.id) {
        ReachedAllAfter(nodes, rank, bound, Children(nodes[e.id]), rank[e.id]);
      }
      hide WithBound, TargetOf, Sound;
    }
  }

  lemma {:induction false} ReachedAllAfter(nodes: seq<Node>, rank: seq<nat>, bound: set<nat>, es: seq<Entry>, h: nat)
    requires Sound(nodes, rank) && Sound(WithBound(nodes, bound), rank) && AllBelow(es, rank, h)
    ensures ReachedAll(WithBound(nodes, bound), rank, es, h) == ReachedAll(nodes, rank, es, h)
    decreases h, 1, |es|
  {
    hide WithBound, Sound, Reached;
    if es != [] {
      ReachedAllAfter(nodes, rank, bound, es[..|es| - 1], h);
      ReachedAfter(nodes, rank, bound, es[|es| - 1]);
    }
  }

  /** After some lookups have been bound, a visit that reaches none of them has the fault it
      had, and one that reaches any of them has a fault. */
  lemma {:induction false} FaultsAfter(nodes: seq<Node>, rank: seq<nat>, bound: set<nat>, e: Entry)
    requires Sound(nodes, rank) && Sound(WithBound(nodes, bound), rank) && InHeap(e, rank)
    ensures var after := FirstFault(WithBound(nodes, bound), rank, e);
            if Members(Reached(nodes, rank, e)) !! bound then after == FirstFault(nodes, rank, e) else after.Some?
    decreases Height(e, rank), 0, 0
  {
    if e.Object? {
      SameTargets(nodes, bound, e.id);
      assert SoundNode(nodes[e.id], rank, rank[e.id]);
      if IsTarget(nodes, e.id) {
        FaultAfter(nodes, bound, e.id);
        assert e.id in Members([e.id]);
      } else if !Closed(nodes, e.id) {
        FaultsAllAfter(nodes, rank, bound, Children(nodes[e.id]), rank[e.id]);
      }
      hide WithBound, TargetOf, Sound, Fault;
    }
  }

  lemma {:induction false} FaultsAllAfter(nodes: seq<Node>, rank: seq<nat>, bound: set<nat>, es: seq<Entry>, h: nat)
    requires Sound(nodes, rank) && Sound(WithBound(nodes, bound), rank) && AllBelow(es, rank, h)
    ensures var after := FirstFaultAll(WithBound(nodes, bound), rank, es, h);
            if Members(ReachedAll(nodes, rank, es, h)) !! bound then after == FirstFaultAll(nodes, rank, es, h) else after.Some?
    decreases h, 1, |es|
  {
    hide WithBound, Sound, Reached, FirstFault, Members;
    if es != [] {
      FaultsAllAfter(nodes, rank, bound, es[..|es| - 1], h);
      FaultsAfter(nodes, rank, bound, es[|es| - 1]);
      DistinctJoined(ReachedAll(nodes, rank, es[..|es| - 1], h), Reached(nodes, rank, es[|es| - 1]));
    } else {
      NoMembers();
    }
  }

  lemma NoMembers()
    ensures Members([]) == {}
  {
  }

  // ---------------------------------------------------------------- what the faults and the bound nodes mean

  lemma {:induction false} AllVisited(items: seq<Json>, out: seq<Json>)
    requires |items| == |out| && forall j :: 0 <= j < |items| ==> Visit(items[j]) == Ok(out[j])
    ensures VisitAll(items) == Ok(out)
  {
    if items != [] {
      AllVisited(items[1..], out[1..]);
      assert out == [out[0]] + out[1..];
    }
  }

  lemma {:induction false} FirstError(items: seq<Json>, k: nat, e: BindError)
    requires k < |items| && Visit(items[k]) == Err(e) && forall j :: 0 <= j < k ==> Visit(items[j]).Ok?
    ensures VisitAll(items) == Err(e)
  {
    if k > 0 {
      FirstError(items[1..], k - 1, e);
    }
  }

  lemma {:induction false} FieldsVisited(fields: seq<Field>, out: seq<Field>)
    requires |fields| == |out|
    requires forall j :: 0 <= j < |fields| ==> fields[j].name == out[j].name && Visit(fields[j].value) == Ok(out[j].value)
    ensures VisitFields(fields) == Ok(out)
  {
    if fields != [] {
      FieldsVisited(fields[1..], out[1..]);
      assert out == [out[0]] + out[1..];
    }
  }

  lemma {:induction false} FirstFieldError(fields: seq<Field>, k: nat, e: BindError)
    requires k < |fields| && Visit(fields[k].value) == Err(e) && forall j :: 0 <= j < k ==> Visit(fields[j].value).Ok?
    ensures VisitFields(fields) == Err(e)
  {
    if k > 0 {
      FirstFieldError(fields[1..], k - 1, e);
    }
  }

  /** A literal is left as it is. */
  lemma PlainStays(v: Json)
    requires Plain(v)
    ensures Visit(v) == Ok(v)
  {
    if v.List? {
      AllVisited(v.items, v.items);
    }
  }

  /** The first of several places with a fault. */
  lemma {:induction false} FaultStands(nodes: seq<Node>, rank: seq<nat>, es: seq<Entry>, h: nat) returns (k: nat)
    requires Sound(nodes, rank) && AllBelow(es, rank, h)
    ensures k <= |es| && forall j :: 0 <= j < k ==> FirstFault(nodes, rank, es[j]) == None
    ensures FirstFaultAll(nodes, rank, es, h) == if k < |es| then FirstFault(nodes, rank, es[k]) else None
    ensures k < |es| ==> FirstFault(nodes, rank, es[k]).Some?
  {
    hide Sound, FirstFault;
    if es == [] { return 0; }
    k := FaultStands(nodes, rank, es[..|es| - 1], h);
    if k == |es| - 1 && FirstFault(nodes, rank, es[k]) == None {
      k := |es|;
    }
  }

  lemma ReferenceTree(nodes: seq<Node>, rank: seq<nat>, e: Entry)
    requires Sound(nodes, rank) && InHeap(e, rank)
    ensures IsDeploymentRef(nodes, e) <==> Tree(nodes, rank, e) == DEPLOYMENT
    ensures forall s :: e == Literal(Scalar(s)) <==> Tree(nodes, rank, e) == Scalar(s)
  {
    if e.Object? && nodes[e.id].Table? {
      assert SoundNode(nodes[e.id], rank, rank[e.id]);
      var node, tree := nodes[e.id], Tree(nodes, rank, e);
      if tree == DEPLOYMENT {
        assert tree.fields[0] == Field(node.names[0], Tree(nodes, rank, node.entries[0]));
        assert node.names == ["Ref"] && node.entries == [node.entries[0]];
      }
    }
  }

  /** Reading the argument of a lookup in place is reading its value. */
  lemma TargetOfTree(nodes: seq<Node>, rank: seq<nat>, e: Entry)
    requires Sound(nodes, rank) && InHeap(e, rank)
    ensures TargetOf(nodes, e) == Target(Tree(nodes, rank, e))
  {
    if e.Object? {
      assert SoundNode(nodes[e.id], rank, rank[e.id]);
      if nodes[e.id].Listing? && nodes[e.id].items != [] {
        var first := nodes[e.id].items[0];
        assert Tree(nodes, rank, e).items[0] == Tree(nodes, rank, first);
        assert first.Object? ==> Tree(nodes, rank, first).List? || Tree(nodes, rank, first).Dict?;
      }
    }
  }

  lemma LookupTree(nodes: seq<Node>, rank: seq<nat>, n: nat)
    requires Sound(nodes, rank) && n < |nodes|
    ensures var tree := Tree(nodes, rank, Object(n));
            && IsLookup(tree) == IsLookupNode(nodes[n])
            && (IsLookupNode(nodes[n]) ==>
                  InHeap(nodes[n].entries[0], rank) && tree == Dict([Field(LOOKUP, Tree(nodes, rank, nodes[n].entries[0]))]))
  {
    assert SoundNode(nodes[n], rank, rank[n]);
    if nodes[n].Table? && |nodes[n].names| == 1 {
      assert nodes[n].names == [nodes[n].names[0]];
    }
  }

  /** A lookup in one of the two mappings has the fault that its rewriting has, and without
      one it becomes the bound node. */
  lemma FaultOfTree(nodes: seq<Node>, rank: seq<nat>, n: nat)
    requires Sound(nodes, rank) && IsTarget(nodes, n)
    ensures var r := Visit(Tree(nodes, rank, Object(n)));
            match Fault(nodes, n) case None => r == Ok(Lookup(MappingOf(nodes, n), BOUND, BoundField(MappingOf(nodes, n)).value))
                                  case Some(e) => r == Err(e)
  {
    LookupTree(nodes, rank, n);
    var argument := nodes[n].entries[0];
    TargetOfTree(nodes, rank, argument);
    if argument.Object? {
      assert SoundNode(nodes[argument.id], rank, rank[argument.id]);
      var items, tree := nodes[argument.id].items, Tree(nodes, rank, argument);
      assert tree.items[0] == Tree(nodes, rank, items[0]);
      if |items| == 3 {
        assert tree.items[1] == Tree(nodes, rank, items[1]) && tree.items[2] == Tree(nodes, rank, items[2]);
        ReferenceTree(nodes, rank, items[1]);
        ReferenceTree(nodes, rank, items[2]);
      }
    }
  }

  /** What Visit finds wrong with the value of a place is the first fault of a visit of the
      place, and there is one exactly if Visit refuses the value. */
  lemma {:induction false} FaultIsRefusal(nodes: seq<Node>, rank: seq<nat>, e: Entry)
    requires Sound(nodes, rank) && InHeap(e, rank)
    ensures FirstFault(nodes, rank, e) == match Visit(Tree(nodes, rank, e)) case Ok(_) => None case Err(x) => Some(x)
    decreases Height(e, rank)
  {
    if e.Literal? {
      PlainStays(e.value);
    } else if IsTarget(nodes, e.id) {
      FaultOfTree(nodes, rank, e.id);
    } else {
      LookupTree(nodes, rank, e.id);
      if IsLookupNode(nodes[e.id]) { TargetOfTree(nodes, rank, nodes[e.id].entries[0]); }
      if !Closed(nodes, e.id) {
        assert SoundNode(nodes[e.id], rank, rank[e.id]);
        var es := Children(nodes[e.id]);
        forall i | 0 <= i < |es|
          ensures FirstFault(nodes, rank, es[i]) == match Visit(Tree(nodes, rank, es[i])) case Ok(_) => None case Err(x) => Some(x)
        {
          FaultIsRefusal(nodes, rank, es[i]);
        }
        ChildrenRefused(nodes, rank, e.id);
      }
    }
  }

  lemma ChildrenRefused(nodes: seq<Node>, rank: seq<nat>, n: nat)
    requires Sound(nodes, rank) && n < |nodes| && !IsTarget(nodes, n) && !Closed(nodes, n)
    requires AllBelow(Children(nodes[n]), rank, rank[n])
    requires forall i :: 0 <= i < |Children(nodes[n])| ==>
      FirstFault(nodes, rank, Children(nodes[n])[i])
      == match Visit(Tree(nodes, rank, Children(nodes[n])[i])) case Ok(_) => None case Err(x) => Some(x)
    ensures FirstFault(nodes, rank, Object(n)) == match Visit(Tree(nodes, rank, Object(n))) case Ok(_) => None case Err(x) => Some(x)
  {
    assert SoundNode(nodes[n], rank, rank[n]);
    var es, tree := Children(nodes[n]), Tree(nodes, rank, Object(n));
    LookupTree(nodes, rank, n);
    if IsLookupNode(nodes[n]) { TargetOfTree(nodes, rank, nodes[n].entries[0]); }
    var k := FaultStands(nodes, rank, es, rank[n]);
    if k < |es| {
      var x := FirstFault(nodes, rank, es[k]).value;
      if nodes[n].Listing? { FirstError(tree.items, k, x); } else { FirstFieldError(tree.fields, k, x); }
    } else if nodes[n].Listing? {
      AllVisited(tree.items, seq(|es|, i requires 0 <= i < |es| => Visit(tree.items[i]).value));
    } else {
      FieldsVisited(tree.fields, seq(|es|, i requires 0 <= i < |es| => Field(tree.fields[i].name, Visit(tree.fields[i].value).value)));
    }
  }

  lemma {:induction false} ReachedFrom(nodes: seq<Node>, rank: seq<nat>, es: seq<Entry>, h: nat, i: nat)
    requires Sound(nodes, rank) && AllBelow(es, rank, h) && i < |es|
    ensures Members(Reached(nodes, rank, es[i])) <= Members(ReachedAll(nodes, rank, es, h))
  {
    hide Sound, Reached, Members, Distinct;
    DistinctJoined(ReachedAll(nodes, rank, es[..|es| - 1], h), Reached(nodes, rank, es[|es| - 1]));
    if i < |es| - 1 {
      ReachedFrom(nodes, rank, es[..|es| - 1], h, i);
    }
  }

  /** Once every lookup that a visit reaches is bound, a place has the rewritten value. */
  lemma {:induction false} ValueAfter(nodes: seq<Node>, rank: seq<nat>, bound: set<nat>, e: Entry)
    requires Sound(nodes, rank) && Sound(WithBound(nodes, bound), rank) && InHeap(e, rank)
    requires FirstFault(nodes, rank, e) == None && Members(Reached(nodes, rank, e)) <= bound
    ensures Visit(Tree(nodes, rank, e)) == Ok(Tree(WithBound(nodes, bound), rank, e))
    decreases Height(e, rank)
  {
    var g := WithBound(nodes, bound);
    if e.Literal? {
      PlainStays(e.value);
    } else if IsTarget(nodes, e.id) {
      assert e.id in Members([e.id]);
      FaultOfTree(nodes, rank, e.id);
      LookupTree(g, rank, e.id);
    } else {
      SameTargets(nodes, bound, e.id);
      assert SoundNode(nodes[e.id], rank, rank[e.id]);
      var es := Children(nodes[e.id]);
      var k := FaultStands(nodes, rank, es, rank[e.id]);
      forall i | 0 <= i < |es| ensures Visit(Tree(nodes, rank, es[i])) == Ok(Tree(g, rank, es[i])) {
        ReachedFrom(nodes, rank, es, rank[e.id], i);
        ValueAfter(nodes, rank, bound, es[i]);
      }
      ChildrenRewritten(nodes, rank, bound, e.id);
    }
  }

  lemma ChildrenRewritten(nodes: seq<Node>, rank: seq<nat>, bound: set<nat>, n: nat)
    requires Sound(nodes, rank) && Sound(WithBound(nodes, bound), rank) && n < |nodes| && !Closed(nodes, n)
    requires AllBelow(Children(nodes[n]), rank, rank[n])
    requires forall i :: 0 <= i < |Children(nodes[n])| ==>
      Visit(Tree(nodes, rank, Children(nodes[n])[i])) == Ok(Tree(WithBound(nodes, bound), rank, Children(nodes[n])[i]))
    ensures Visit(Tree(nodes, rank, Object(n))) == Ok(Tree(WithBound(nodes, bound), rank, Object(n)))
  {
    var g := WithBound(nodes, bound);
    SameTargets(nodes, bound, n);
    LookupTree(nodes, rank, n);
    if IsLookupNode(nodes[n]) { TargetOfTree(nodes, rank, nodes[n].entries[0]); }
    var before, after := Tree(nodes, rank, Object(n)), Tree(g, rank, Object(n));
    assert SoundNode(nodes[n], rank, rank[n]);
    if nodes[n].Listing? { AllVisited(before.items, after.items); } else { FieldsVisited(before.fields, after.fields); }
  }

  // ---------------------------------------------------------------- the binding in place

  lemma NoneYet(nodes: seq<Node>, rank: seq<nat>, es: seq<Entry>, h: nat)
    requires Sound(nodes, rank) && AllBelow(es, rank, h)
    ensures ReachedAll(nodes, rank, es[..0], h) == [] && FirstFaultAll(nodes, rank, es[..0], h) == None
    ensures Members([]) == {} && Distinct([]) && WithBound(nodes, {}) == nodes
  {
  }

  lemma OneMorePlace(nodes: seq<Node>, rank: seq<nat>, es: seq<Entry>, h: nat, i: nat)
    requires Sound(nodes, rank) && AllBelow(es, rank, h) && i < |es|
    ensures var a, b := ReachedAll(nodes, rank, es[..i], h), Reached(nodes, rank, es[i]);
            && ReachedAll(nodes, rank, es[..i + 1], h) == a + b && Members(a + b) == Members(a) + Members(b)
            && (Distinct(a + b) <==> Distinct(a) && Distinct(b) && Members(a) !! Members(b))
    ensures var before := FirstFaultAll(nodes, rank, es[..i], h);
            FirstFaultAll(nodes, rank, es[..i + 1], h) == if before.Some? then before else FirstFault(nodes, rank, es[i])
  {
    hide Sound, Distinct, Members;
    assert es[..i + 1][..i] == es[..i];
    DistinctJoined(ReachedAll(nodes, rank, es[..i], h), Reached(nodes, rank, es[i]));
  }

  /** What is wrong with the first places is wrong with all of them. */
  lemma {:induction false} StaysRefused(nodes: seq<Node>, rank: seq<nat>, es: seq<Entry>, h: nat, k: nat)
    requires Sound(nodes, rank) && AllBelow(es, rank, h) && k <= |es|
    ensures Distinct(ReachedAll(nodes, rank, es, h)) ==> Distinct(ReachedAll(nodes, rank, es[..k], h))
    ensures var first := FirstFaultAll(nodes, rank, es[..k], h); first.Some? ==> FirstFaultAll(nodes, rank, es, h) == first
    decreases |es|
  {
    hide Sound, Distinct, ReachedAll, FirstFaultAll;
    if k == |es| {
      assert es[..k] == es;
    } else {
      var front := es[..|es| - 1];
      assert front[..k] == es[..k];
      StaysRefused(nodes, rank, front, h, k);
      OneMorePlace(nodes, rank, es, h, |es| - 1);
      assert es[..|es| - 1 + 1] == es;
    }
  }

  /** A template: its mappings, which hold only literal values, and everything else. */
  class Template {
    var mappings: Option<Mappings>
    /** The lists and dictionaries by identity. */
    var nodes: seq<Node>
    ghost const rank: seq<nat>

    ghost predicate Valid()
      reads this
    {
      Sound(nodes, rank)
    }

    constructor (mappings: Option<Mappings>, nodes: seq<Node>, ghost rank: seq<nat>)
      requires Sound(nodes, rank)
      ensures Valid() && this.mappings == mappings && this.nodes == nodes && this.rank == rank
    {
      this.mappings, this.nodes, this.rank := mappings, nodes, rank;
    }

    /** Replaces the argument of a lookup in one of the two mappings. */
    method BindLookup(n: nat) returns (error: Option<BindError>)
      requires IsTarget(nodes, n)
      modifies `nodes
      ensures error == Fault(old(nodes), n)
      ensures error == None ==> nodes == WithBound(old(nodes), {n})
    {
      var mapping := MappingOf(nodes, n);
      match nodes[n].entries[0] {
        case Literal(v) => return Some(if |v.items| != 3 then Malformed else Unexpected);
        case Object(a) =>
          var items := nodes[a].items;
          if |items| != 3 { return Some(Malformed); }
          var field := BoundField(mapping).value;
          if !IsDeploymentRef(nodes, items[1]) || items[2] != Literal(Scalar(field)) { return Some(Unexpected); }
      }
      BindOne(nodes, n);
      nodes := nodes[n := BoundNode(mapping)];
      error := None;
    }

    /** Visits several places one after the other, up to the first error. */
    method VisitEach(es: seq<Entry>, ghost h: nat) returns (error: Option<BindError>)
      requires Valid() && AllBelow(es, rank, h)
      modifies `nodes
      ensures error == None <==>
        FirstFaultAll(old(nodes), rank, es, h) == None && Distinct(ReachedAll(old(nodes), rank, es, h))
      ensures error == None ==> Valid() && nodes == WithBound(old(nodes), Members(ReachedAll(old(nodes), rank, es, h)))
      ensures Distinct(ReachedAll(old(nodes), rank, es, h)) ==> error == FirstFaultAll(old(nodes), rank, es, h)
      decreases h, 1
    {
      hide Sound, FirstFault, Reached, WithBound, Members, Distinct;
      NoneYet(nodes, rank, es, h);
      ghost var before := nodes;
      for i := 0 to |es|
        invariant Valid() && nodes == WithBound(before, Members(ReachedAll(before, rank, es[..i], h)))
        invariant FirstFaultAll(before, rank, es[..i], h) == None && Distinct(ReachedAll(before, rank, es[..i], h))
      {
        ghost var bound := Members(ReachedAll(before, rank, es[..i], h));
        ReachedAfter(before, rank, bound, es[i]);
        FaultsAfter(before, rank, bound, es[i]);
        OneMorePlace(before, rank, es, h, i);
        error := VisitPlace(es[i]);
        if error.Some? {
          StaysRefused(before, rank, es, h, i + 1);
          return;
        }
        BindMore(before, bound, Members(Reached(before, rank, es[i])));
      }
      assert es[..|es|] == es;
      error := None;
    }

    /** The binding of a place and everything below it, in place. It succeeds exactly if the
        rewriting of the value succeeds and no lookup to be bound is reached twice; the
        second time it is bound already, and refused. Then exactly the lookups reached have
        changed. */
    method VisitPlace(e: Entry) returns (error: Option<BindError>)
      requires Valid() && InHeap(e, rank)
      modifies `nodes
      ensures error == None <==> FirstFault(old(nodes), rank, e) == None && Distinct(Reached(old(nodes), rank, e))
      ensures error == None ==> Valid() && nodes == WithBound(old(nodes), Members(Reached(old(nodes), rank, e)))
      ensures Distinct(Reached(old(nodes), rank, e)) ==> error == FirstFault(old(nodes), rank, e)
      decreases Height(e, rank), 0
    {
      NoMembers();
      if e.Literal? {
        BindNone(nodes);
        return None;
      }
      assert SoundNode(nodes[e.id], rank, rank[e.id]);
      var node := nodes[e.id];
      if IsLookupNode(node) {
        var target := TargetOf(nodes, node.entries[0]);
        if target.Err? { return Some(target.error); }
        if target.value {
          error := BindLookup(e.id);
          assert Members([e.id]) == {e.id};
          BindingKeepsSound(old(nodes), rank, {e.id});
          return;
        }
      }
      error := VisitEach(Children(node), rank[e.id]);
    }

    /** Binds both mappings to one deployment, in place. Over lists and dictionaries that may
        stand in several places it succeeds exactly if the value of the template can be
        rewritten and no lookup to be bound is reached twice. A template that is accepted has
        the value it had with an entry for that deployment in both mappings. */
    method BindDeploymentMappings(body: Entry, deployment: string) returns (error: Option<BindError>)
      requires Valid() && InHeap(body, rank)
      modifies `mappings, `nodes
      ensures error == None <==>
        && old(mappings).Some? && Visit(Tree(old(nodes), rank, body)).Ok? && Distinct(Reached(old(nodes), rank, body))
      ensures old(mappings) == None ==> error == Some(NoMappings)
      ensures old(mappings).Some? && Distinct(Reached(old(nodes), rank, body)) ==>
        error == match Visit(Tree(old(nodes), rank, body)) case Ok(_) => None case Err(e) => Some(e)
      ensures old(mappings).Some? ==> mappings.Some? && BindsBoth(old(mappings).value, mappings.value, deployment)
      ensures error == None ==> Valid() && Visit(Tree(old(nodes), rank, body)) == Ok(Tree(nodes, rank, body))
      ensures error == None ==> forall parameters: map<string, string> ::
        "DeploymentId" in parameters && parameters["DeploymentId"] == deployment ==>
          Value(Tree(nodes, rank, body), parameters, mappings.value)
          == Value(Tree(old(nodes), rank, body), parameters, Filled(old(mappings).value, deployment, deployment))
    {
      hide Sound, FirstFault, Reached, Tree, Visit, Value, Filled, Distinct, WithBound, BindsBoth;
      if mappings == None { return Some(NoMappings); }
      ghost var before, given := nodes, mappings.value;
      mappings := Some(Filled(mappings.value, "Bound", deployment));
      BothAreBound(given, deployment);
      FaultIsRefusal(before, rank, body);
      error := VisitPlace(body);
      if error == None {
        ValueAfter(before, rank, Members(Reached(before, rank, body)), body);
        forall parameters: map<string, string> | "DeploymentId" in parameters && parameters["DeploymentId"] == deployment
          ensures Value(Tree(nodes, rank, body), parameters, mappings.value)
                  == Value(Tree(before, rank, body), parameters, Filled(given, deployment, deployment))
        {
          BindingKeepsValue(Tree(before, rank, body), parameters, given, deployment);
        }
      }
    }
  }

  /** Both mappings have the one entry "Bound" with their one field, the name of the
      deployment and its bucket; the bound lookups give these; other mappings are as before. */
  ghost predicate BindsBoth(before: Mappings, after: Mappings, deployment: string) {
    && after.Keys == before.Keys + {"DeploymentNames", "DeploymentDocumentBuckets"}
    && (forall name :: name in before && name !in {"DeploymentNames", "DeploymentDocumentBuckets"} ==> after[name] == before[name])
    && exists text :: Sanitizes(text, deployment)
         && after["DeploymentNames"] == map["Bound" := map["SanitizedDeploymentId" := Scalar(text)]]
         && after["DeploymentDocumentBuckets"] == map["Bound" := map["Name" := Scalar(text + "-documents")]]
         && forall parameters :: GivesBoth(after, parameters, text)
  }

  ghost predicate GivesBoth(maps: Mappings, parameters: map<string, string>, text: string) {
    && Value(Lookup("DeploymentNames", Scalar("Bound"), "SanitizedDeploymentId"), parameters, maps) == Some(Scalar(text))
    && Value(Lookup("DeploymentDocumentBuckets", Scalar("Bound"), "Name"), parameters, maps) == Some(Scalar(text + "-documents"))
  }

  lemma BothAreBound(maps: Mappings, deployment: string)
    ensures BindsBoth(maps, Filled(maps, "Bound", deployment), deployment)
  {
    hide Filled, Sanitizes, Value;
    var text := FilledHolds(maps, "Bound", deployment);
    var after := Filled(maps, "Bound", deployment);
    forall parameters: map<string, string> ensures GivesBoth(after, parameters, text) {
      BoundLookupsGive(after, deployment, parameters, text);
    }
  }

  /** A lookup argument, a lookup with it, and that lookup in two places of a list. */
  ghost predicate SharedLookup(nodes: seq<Node>, n: nat) {
    && |nodes| == 4 && n == 2 && IsTarget(nodes, n) && Fault(nodes, n) == None
    && nodes[3] == Listing([Object(n), Object(n)])
  }

  /** One lookup that stands in two places of a list: its value can be rewritten, and the
      visit reaches it twice, so that the binding in place refuses it. */
  lemma SharedLookupIsRefused() returns (nodes: seq<Node>, rank: seq<nat>, body: Entry)
    ensures Sound(nodes, rank) && InHeap(body, rank)
    ensures Visit(Tree(nodes, rank, body)).Ok? && !Distinct(Reached(nodes, rank, body))
  {
    hide Tree, Visit, Distinct, Reached;
    nodes, rank := SomeSharedLookup();
    body := Object(3);
    ReachesTwice(nodes, rank, 3, 2);
    NotDistinct([2], [2]);
    FaultIsRefusal(nodes, rank, body);
  }

  lemma SomeSharedLookup() returns (nodes: seq<Node>, rank: seq<nat>)
    ensures Sound(nodes, rank) && rank == [0, 1, 2, 3] && SharedLookup(nodes, 2)
  {
    hide Sound, IsTarget, Fault, BoundField;
    var m, field := "DeploymentNames", "SanitizedDeploymentId";
    var items := [Literal(Scalar(m)), Object(0), Literal(Scalar(field))];
    nodes := [Table(["Ref"], [Literal(Scalar("DeploymentId"))]), Listing(items),
              Table([LOOKUP], [Object(1)]), Listing([Object(2), Object(2)])];
    rank := [0, 1, 2, 3];
    NamesBound(m, field);
    SoundLookup(nodes, rank, items);
    FaultlessLookup(nodes, items, m, field);
  }

  lemma NamesBound(m: string, field: string)
    requires m == "DeploymentNames" && field == "SanitizedDeploymentId"
    ensures BoundField(m) == Some(field)
  {
  }

  lemma SoundLookup(nodes: seq<Node>, rank: seq<nat>, items: seq<Entry>)
    requires |nodes| == 4 && rank == [0, 1, 2, 3] && |items| == 3
    requires nodes[0].Table? && nodes[0].names == ["Ref"] && nodes[0].entries == [Literal(Scalar("DeploymentId"))]
    requires nodes[1] == Listing(items) && items[0].Literal? && items[1] == Object(0) && items[2].Literal?
    requires items[0].value.Scalar? && items[2].value.Scalar?
    requires nodes[2] == Table([LOOKUP], [Object(1)]) && nodes[3] == Listing([Object(2), Object(2)])
    ensures Sound(nodes, rank)
  {
    assert SoundNode(nodes[0], rank, 0);
    assert SoundNode(nodes[1], rank, 1);
    assert SoundNode(nodes[2], rank, 2);
    assert SoundNode(nodes[3], rank, 3);
  }

  lemma FaultlessLookup(nodes: seq<Node>, items: seq<Entry>, m: string, field: string)
    requires |nodes| == 4 && nodes[0] == Table(["Ref"], [Literal(Scalar("DeploymentId"))]) && BoundField(m) == Some(field)
    requires nodes[1] == Listing(items) && items == [Literal(Scalar(m)), Object(0), Literal(Scalar(field))]
    requires nodes[2] == Table([LOOKUP], [Object(1)])
    ensures IsTarget(nodes, 2) && Fault(nodes, 2) == None
  {
    hide BoundField;
  }

  lemma NotDistinct(a: seq<nat>, b: seq<nat>)
    requires a == b && a != []
    ensures !Distinct(a + b)
  {
    assert (a + b)[0] == (a + b)[|a|];
  }

  lemma ListVisit(nodes: seq<Node>, rank: seq<nat>, n: nat)
    requires Sound(nodes, rank) && n < |nodes| && nodes[n].Listing? && AllBelow(nodes[n].items, rank, rank[n])
    ensures Reached(nodes, rank, Object(n)) == ReachedAll(nodes, rank, nodes[n].items, rank[n])
    ensures FirstFault(nodes, rank, Object(n)) == FirstFaultAll(nodes, rank, nodes[n].items, rank[n])
  {
  }

  lemma TargetVisit(nodes: seq<Node>, rank: seq<nat>, n: nat)
    requires Sound(nodes, rank) && IsTarget(nodes, n)
    ensures Reached(nodes, rank, Object(n)) == [n] && FirstFault(nodes, rank, Object(n)) == Fault(nodes, n)
  {
  }

  lemma TwoPlaces(nodes: seq<Node>, rank: seq<nat>, e: Entry, h: nat)
    requires Sound(nodes, rank) && AllBelow([e, e], rank, h) && InHeap(e, rank)
    ensures ReachedAll(nodes, rank, [e, e], h) == Reached(nodes, rank, e) + Reached(nodes, rank, e)
    ensures FirstFaultAll(nodes, rank, [e, e], h) == FirstFault(nodes, rank, e)
  {
    hide Sound, InHeap, AllBelow, ReachedAll, FirstFaultAll, Reached, FirstFault, Distinct, Members, WithBound;
    assert [e, e][..1] == [e] && [e, e][..2] == [e, e];
    NoneYet(nodes, rank, [e, e], h);
    OneMorePlace(nodes, rank, [e, e], h, 0);
    OneMorePlace(nodes, rank, [e, e], h, 1);
    assert [] + Reached(nodes, rank, e) == Reached(nodes, rank, e);
  }

  lemma ReachesTwice(nodes: seq<Node>, rank: seq<nat>, n: nat, m: nat)
    requires Sound(nodes, rank) && n < |nodes| && m < |nodes| && nodes[n] == Listing([Object(m), Object(m)]) && IsTarget(nodes, m)
    ensures Reached(nodes, rank, Object(n)) == [m] + [m]
    ensures FirstFault(nodes, rank, Object(n)) == Fault(nodes, m)
  {
    hide Fault, FirstFaultAll, ReachedAll, FirstFault, Reached, IsTarget;
    assert SoundNode(nodes[n], rank, rank[n]);
    ListVisit(nodes, rank, n);
    TwoPlaces(nodes, rank, Object(m), rank[n]);
    TargetVisit(nodes, rank, m);
  }
}
