/** The sanitized summary of a Terraform plan, and the validation of a stored one. */
module PlanSummary {
  import opened Digests
  import opened Ordering
  import opened Outcomes

  datatype Action = Create | Update | Read | NoOp | Delete | Replace

  datatype ResourceChange = ResourceChange(
    address: string, kind: string, name: string, actions: seq<string>, moved: bool, deposed: bool, importing: bool)

  datatype OutputChange = OutputChange(name: string, actions: seq<string>)

  /** Terraform's plan JSON. outputs is a mapping by name, in its own order; unsupported
      says that drift, deferred changes or action invocations are present. */
  datatype Plan = Plan(
    format: string, terraform: string, applyable: bool, complete: bool, errored: bool, unsupported: bool,
    outputs: seq<OutputChange>, resources: seq<ResourceChange>)

  datatype ResourceAction = ResourceAction(kind: string, name: string, action: Action, addressDigest: string)

  datatype OutputAction = OutputAction(name: string, action: Action)

  datatype Tally = Tally(create: int, update: int, read: int, noOp: int, delete: int, replace: int) {
    function Of(a: Action): int {
      match a
      case Create => create
      case Update => update
      case Read => read
      case NoOp => noOp
      case Delete => delete
      case Replace => replace
    }

    function Plus(a: Action): Tally {
      match a
      case Create => this.(create := create + 1)
      case Update => this.(update := update + 1)
      case Read => this.(read := read + 1)
      case NoOp => this.(noOp := noOp + 1)
      case Delete => this.(delete := delete + 1)
      case Replace => this.(replace := replace + 1)
    }

    function Sum(): int {
      create + update + read + noOp + delete + replace
    }

    predicate NonNegative() {
      create >= 0 && update >= 0 && read >= 0 && noOp >= 0 && delete >= 0 && replace >= 0
    }
  }

  const NOTHING := Tally(0, 0, 0, 0, 0, 0)

  datatype Class = NoChangeClass | ChangeClass

  datatype Content = Content(
    counts: Tally, outputCounts: Tally, applyable: bool, resourceCount: int, resourceActions: seq<ResourceAction>,
    outputCount: int, outputActions: seq<OutputAction>, classification: Class)

  datatype Summary = Summary(content: Content, digest: Digest<Content>)

  datatype PlanError = Incomplete | MalformedOutput | UnknownAction | TooManyChanges | MalformedResource | Contradiction | Destructive

  const MAX_RESOURCES := 256
  const MAX_OUTPUTS := 128

  // ---------------------------------------------------------------- single changes

  function Kind(actions: seq<string>): Option<Action> {
    if actions == ["create"] then Some(Create)
    else if actions == ["update"] then Some(Update)
    else if actions == ["read"] then Some(Read)
    else if actions == ["no-op"] then Some(NoOp)
    else if actions == ["delete"] then Some(Delete)
    else if actions == ["delete", "create"] || actions == ["create", "delete"] then Some(Replace)
    else None
  }

  function ResourceKind(r: ResourceChange): Option<Action> {
    Kind(r.actions)
  }

  function OutputKind(o: OutputChange): Option<Action> {
    if Kind(o.actions) == Some(Read) || Kind(o.actions) == Some(Replace) then None else Kind(o.actions)
  }

  predicate IdentifierStart(c: char) {
    'A' <= c <= 'Z' || 'a' <= c <= 'z' || c == '_'
  }

  predicate Identifier(s: string) {
    1 <= |s| <= 128 && IdentifierStart(s[0])
    && forall i :: 0 <= i < |s| ==> IdentifierStart(s[i]) || '0' <= s[i] <= '9' || s[i] == '-'
  }

  /** The size of text in UTF-8. */
  function Encoded(s: string): nat {
    if s == [] then 0
    else
      var c := s[|s| - 1] as int;
      Encoded(s[..|s| - 1]) + if c < 0x80 then 1 else if c < 0x800 then 2 else if c < 0x1_0000 then 3 else 4
  }

  /** A character in UTF-8, section 3 of RFC 3629. */
  function Utf8(c: char): seq<int> {
    var n := c as int;
    var upper := n / 0x40;
    var top := upper / 0x40;
    if n < 0x80 then [n]
    else if n < 0x800 then [0xC0 + upper, 0x80 + n % 0x40]
    else if n < 0x1_0000 then [0xE0 + top, 0x80 + upper % 0x40, 0x80 + n % 0x40]
    else [0xF0 + top / 0x40, 0x80 + top % 0x40, 0x80 + upper % 0x40, 0x80 + n % 0x40]
  }

  function AllUtf8(s: string): seq<int> {
    if s == [] then [] else AllUtf8(s[..|s| - 1]) + Utf8(s[|s| - 1])
  }

  /** Reads the number of one character. The first byte tells how many there are. */
  function ReadUtf8(b: seq<int>): Option<int> {
    if b == [] then None
    else if b[0] < 0x80 then Some(b[0])
    else if 0xC0 <= b[0] < 0xE0 && |b| == 2 then Some((b[0] - 0xC0) * 0x40 + (b[1] - 0x80))
    else if 0xE0 <= b[0] < 0xF0 && |b| == 3 then Some((b[0] - 0xE0) * 0x1000 + (b[1] - 0x80) * 0x40 + (b[2] - 0x80))
    else if 0xF0 <= b[0] < 0xF8 && |b| == 4 then
      Some((b[0] - 0xF0) * 0x4_0000 + (b[1] - 0x80) * 0x1000 + (b[2] - 0x80) * 0x40 + (b[3] - 0x80))
    else None
  }

  lemma Utf8ReadsBack(c: char)
    ensures ReadUtf8(Utf8(c)) == Some(c as int)
    ensures forall b :: b in Utf8(c) ==> 0 <= b < 0x100
  {
  }

  /** The size is the number of bytes of the text in UTF-8. */
  lemma {:induction false} EncodedIsUtf8(s: string)
    ensures Encoded(s) == |AllUtf8(s)|
  {
    if s != [] {
      EncodedIsUtf8(s[..|s| - 1]);
    }
  }

  predicate ResourceUsable(r: ResourceChange) {
    r.address != "" && Encoded(r.address) <= 4096 && Identifier(r.kind) && Identifier(r.name)
    && !r.moved && !r.deposed && !r.importing
  }

  function ResourceKey(r: ResourceAction): string {
    r.addressDigest
  }

  function OutputKey(o: OutputAction): string {
    o.name
  }

  function Address(r: ResourceChange): string {
    r.address
  }

  function OutputName(o: OutputChange): string {
    o.name
  }

  // ---------------------------------------------------------------- what a plan contains

  /** How many changes are of one kind. */
  function Count<T>(xs: seq<T>, kind: T -> Option<Action>, a: Action): nat {
    if xs == [] then 0 else Count(xs[..|xs| - 1], kind, a) + if kind(xs[|xs| - 1]) == Some(a) then 1 else 0
  }

  predicate AllKnown<T(!new)>(xs: seq<T>, kind: T -> Option<Action>) {
    forall i :: 0 <= i < |xs| ==> kind(xs[i]).Some?
  }

  function EntryFor(r: ResourceChange, digest: string -> string): seq<ResourceAction>
    requires ResourceKind(r).Some?
  {
    if ResourceKind(r) == Some(NoOp) then [] else [ResourceAction(r.kind, r.name, ResourceKind(r).value, digest(r.address))]
  }

  function OutputEntryFor(o: OutputChange): seq<OutputAction>
    requires OutputKind(o).Some?
  {
    if OutputKind(o) == Some(NoOp) then [] else [OutputAction(o.name, OutputKind(o).value)]
  }

  /** The manifest of the changes that do something, in plan order. */
  function ResourceManifest(rs: seq<ResourceChange>, digest: string -> string): seq<ResourceAction>
    requires AllKnown(rs, ResourceKind)
  {
    if rs == [] then [] else ResourceManifest(rs[..|rs| - 1], digest) + EntryFor(rs[|rs| - 1], digest)
  }

  function OutputManifest(os: seq<OutputChange>): seq<OutputAction>
    requires AllKnown(os, OutputKind)
  {
    if os == [] then [] else OutputManifest(os[..|os| - 1]) + OutputEntryFor(os[|os| - 1])
  }

  ghost predicate TallyOf<T(!new)>(t: Tally, xs: seq<T>, kind: T -> Option<Action>) {
    forall a :: t.Of(a) == Count(xs, kind, a)
  }

  /** A digest function without a collision among the addresses of these changes. */
  ghost predicate Separates(digest: string -> string, rs: seq<ResourceChange>) {
    && (forall x :: IsDigest(digest(x)))
    && (forall i, j :: 0 <= i < |rs| && 0 <= j < |rs| && digest(rs[i].address) == digest(rs[j].address) ==>
          rs[i].address == rs[j].address)
  }

  predicate Complete(p: Plan) {
    p.format == "1.2" && p.terraform != "" && p.complete && !p.errored && !p.unsupported
  }

  ghost predicate OutputsUsable(os: seq<OutputChange>) {
    AllKnown(os, OutputKind) && forall i :: 0 <= i < |os| ==> Identifier(os[i].name)
  }

  ghost predicate ResourcesUsable(rs: seq<ResourceChange>) {
    AllKnown(rs, ResourceKind) && DistinctKeys(rs, Address) && forall i :: 0 <= i < |rs| ==> ResourceUsable(rs[i])
  }

  /** The plans that can be summarized: complete, well formed, within the review limits,
      without destruction, and applyable exactly if something would be done. */
  ghost predicate Summarizable(p: Plan) {
    && Complete(p) && OutputsUsable(p.outputs) && ResourcesUsable(p.resources)
    && |p.outputs| - Count(p.outputs, OutputKind, NoOp) <= MAX_OUTPUTS
    && |p.resources| - Count(p.resources, ResourceKind, NoOp) <= MAX_RESOURCES
    && Count(p.resources, ResourceKind, Delete) == 0 && Count(p.resources, ResourceKind, Replace) == 0
    && (p.applyable <==> Material(p))
  }

  ghost predicate Material(p: Plan)
  {
    Count(p.outputs, OutputKind, NoOp) < |p.outputs| || Count(p.resources, ResourceKind, NoOp) < |p.resources|
  }

  /** The summary says what the plan does: every count, one entry for every change that
      is not a no-op and no other entry, in strict order. */
  ghost predicate Faithful(p: Plan, s: Summary, digest: string -> string)
    requires Summarizable(p)
  {
    var c := s.content;
    && TallyOf(c.counts, p.resources, ResourceKind) && TallyOf(c.outputCounts, p.outputs, OutputKind)
    && c.resourceCount == |p.resources| && c.outputCount == |p.outputs| && c.applyable == p.applyable
    && multiset(c.resourceActions) == multiset(ResourceManifest(p.resources, digest))
    && StrictlySorted(c.resourceActions, ResourceKey)
    && multiset(c.outputActions) == multiset(OutputManifest(p.outputs)) && StrictlySorted(c.outputActions, OutputKey)
    && c.classification == (if Material(p) then ChangeClass else NoChangeClass)
    && s.digest == DigestOf(c)
  }

  predicate EntryWellFormed(r: ResourceAction) {
    Identifier(r.kind) && Identifier(r.name) && IsDigest(r.addressDigest)
  }

  predicate OutputWellFormed(o: OutputAction) {
    Identifier(o.name) && o.action in {Create, Update, Delete}
  }

  /** What the validation of a stored summary demands. */
  ghost predicate ValidSummary(s: Summary) {
    var c := s.content;
    && c.counts.NonNegative() && c.outputCounts.NonNegative()
    && c.counts.Sum() == c.resourceCount && c.outputCounts.Sum() == c.outputCount
    && c.outputCounts.read == 0 && c.outputCounts.replace == 0
    && |c.resourceActions| == c.resourceCount - c.counts.noOp <= MAX_RESOURCES
    && |c.outputActions| == c.outputCount - c.outputCounts.noOp <= MAX_OUTPUTS
    && StrictlySorted(c.resourceActions, ResourceKey) && StrictlySorted(c.outputActions, OutputKey)
    && (forall r :: r in c.resourceActions ==> EntryWellFormed(r))
    && (forall o :: o in c.outputActions ==> OutputWellFormed(o))
    && c.counts.delete == 0 && c.counts.replace == 0
    && (c.applyable <==> c.classification == ChangeClass)
    && (c.classification == NoChangeClass <==> c.resourceActions == [] && c.outputActions == [])
    && s.digest == DigestOf(c)
  }

  // ---------------------------------------------------------------- counting

  lemma {:induction false} CountsAddUp<T(!new)>(xs: seq<T>, kind: T -> Option<Action>)
    requires AllKnown(xs, kind)
    ensures Count(xs, kind, Create) + Count(xs, kind, Update) + Count(xs, kind, Read) + Count(xs, kind, NoOp)
            + Count(xs, kind, Delete) + Count(xs, kind, Replace) == |xs|
  {
    if xs != [] {
      CountsAddUp(xs[..|xs| - 1], kind);
      match kind(xs[|xs| - 1]).value {
        case Create => case Update => case Read => case NoOp => case Delete => case Replace =>
      }
    }
  }

  lemma {:induction false} OutputsNeverRead(os: seq<OutputChange>)
    ensures Count(os, OutputKind, Read) == 0 && Count(os, OutputKind, Replace) == 0
  {
    if os != [] {
      OutputsNeverRead(os[..|os| - 1]);
    }
  }

  lemma {:induction false} ResourceManifestLength(rs: seq<ResourceChange>, digest: string -> string)
    requires AllKnown(rs, ResourceKind)
    ensures |ResourceManifest(rs, digest)| == |rs| - Count(rs, ResourceKind, NoOp)
  {
    if rs != [] {
      ResourceManifestLength(rs[..|rs| - 1], digest);
    }
  }

  /** An entry is about one of the changes. */
  predicate EntryOf(e: ResourceAction, r: ResourceChange, digest: string -> string) {
    e.addressDigest == digest(r.address) && e.kind == r.kind && e.name == r.name && Some(e.action) == ResourceKind(r)
  }

  lemma {:induction false} ResourceManifestSource(rs: seq<ResourceChange>, digest: string -> string, i: nat) returns (k: nat)
    requires AllKnown(rs, ResourceKind) && i < |ResourceManifest(rs, digest)|
    ensures k < |rs| && EntryOf(ResourceManifest(rs, digest)[i], rs[k], digest)
  {
    var front := rs[..|rs| - 1];
    if i < |ResourceManifest(front, digest)| {
      k := ResourceManifestSource(front, digest, i);
    } else {
      k := |rs| - 1;
    }
  }

  lemma {:induction false} ResourceKeysDiffer(rs: seq<ResourceChange>, digest: string -> string)
    requires AllKnown(rs, ResourceKind) && DistinctKeys(rs, Address) && Separates(digest, rs)
    ensures DistinctKeys(ResourceManifest(rs, digest), ResourceKey)
  {
    if rs != [] {
      var front, r := rs[..|rs| - 1], rs[|rs| - 1];
      ResourceKeysDiffer(front, digest);
      var m := ResourceManifest(front, digest);
      forall i | 0 <= i < |m| ensures ResourceKey(m[i]) != digest(r.address) {
        var k := ResourceManifestSource(front, digest, i);
        assert Address(rs[k]) != Address(r) && rs[k] == front[k];
      }
    }
  }

  lemma ResourceManifestNames(rs: seq<ResourceChange>, digest: string -> string)
    requires ResourcesUsable(rs) && forall x :: IsDigest(digest(x))
    ensures forall e :: e in ResourceManifest(rs, digest) ==> EntryWellFormed(e)
  {
    hide Identifier, Encoded, IsDigest;
    forall e | e in ResourceManifest(rs, digest) ensures EntryWellFormed(e) {
      var i :| 0 <= i < |ResourceManifest(rs, digest)| && ResourceManifest(rs, digest)[i] == e;
      var k := ResourceManifestSource(rs, digest, i);
      assert ResourceUsable(rs[k]);
    }
  }

  lemma {:induction false} OutputManifestLength(os: seq<OutputChange>)
    requires AllKnown(os, OutputKind)
    ensures |OutputManifest(os)| == |os| - Count(os, OutputKind, NoOp)
  {
    if os != [] {
      OutputManifestLength(os[..|os| - 1]);
    }
  }

  lemma {:induction false} OutputManifestSource(os: seq<OutputChange>, i: nat) returns (k: nat)
    requires AllKnown(os, OutputKind) && i < |OutputManifest(os)|
    ensures k < |os| && OutputManifest(os)[i].name == os[k].name && OutputManifest(os)[i].action in {Create, Update, Delete}
  {
    var front := os[..|os| - 1];
    if i < |OutputManifest(front)| {
      k := OutputManifestSource(front, i);
    } else {
      k := |os| - 1;
    }
  }

  lemma {:induction false} OutputKeysDiffer(os: seq<OutputChange>)
    requires AllKnown(os, OutputKind) && DistinctKeys(os, OutputName)
    ensures DistinctKeys(OutputManifest(os), OutputKey)
  {
    if os != [] {
      var front, o := os[..|os| - 1], os[|os| - 1];
      OutputKeysDiffer(front);
      var m := OutputManifest(front);
      forall i | 0 <= i < |m| ensures OutputKey(m[i]) != o.name {
        var k := OutputManifestSource(front, i);
        assert OutputName(os[k]) != OutputName(o);
      }
    }
  }

  lemma OutputManifestNames(os: seq<OutputChange>)
    requires OutputsUsable(os)
    ensures forall e :: e in OutputManifest(os) ==> OutputWellFormed(e)
  {
    hide Identifier;
    forall e | e in OutputManifest(os) ensures OutputWellFormed(e) {
      var i :| 0 <= i < |OutputManifest(os)| && OutputManifest(os)[i] == e;
      var k := OutputManifestSource(os, i);
    }
  }

  // ---------------------------------------------------------------- what follows from a faithful summary

  lemma TallyNumbers<T(!new)>(t: Tally, xs: seq<T>, kind: T -> Option<Action>)
    requires TallyOf(t, xs, kind) && AllKnown(xs, kind)
    ensures t.NonNegative() && t.Sum() == |xs|
    ensures t.create == Count(xs, kind, Create) && t.update == Count(xs, kind, Update) && t.read == Count(xs, kind, Read)
    ensures t.noOp == Count(xs, kind, NoOp) && t.delete == Count(xs, kind, Delete) && t.replace == Count(xs, kind, Replace)
  {
    CountsAddUp(xs, kind);
    assert t.Of(Create) == t.create && t.Of(Update) == t.update && t.Of(Read) == t.read;
    assert t.Of(NoOp) == t.noOp && t.Of(Delete) == t.delete && t.Of(Replace) == t.replace;
  }

  /** A faithful summary passes the validation that every later reader makes. */
  lemma FaithfulIsValid(p: Plan, s: Summary, digest: string -> string)
    requires Summarizable(p) && Faithful(p, s, digest) && forall x :: IsDigest(digest(x))
    ensures ValidSummary(s)
  {
    hide TallyOf, Count, ResourceManifest, OutputManifest, EntryWellFormed, OutputWellFormed;
    hide StrictlySorted, DistinctKeys, ResourceUsable, Identifier, IsDigest;
    var c := s.content;
    TallyNumbers(c.counts, p.resources, ResourceKind);
    TallyNumbers(c.outputCounts, p.outputs, OutputKind);
    OutputsNeverRead(p.outputs);
    ResourceManifestLength(p.resources, digest);
    ResourceManifestNames(p.resources, digest);
    OutputManifestLength(p.outputs);
    OutputManifestNames(p.outputs);
    SameMembers(c.resourceActions, ResourceManifest(p.resources, digest));
    SameMembers(c.outputActions, OutputManifest(p.outputs));
  }

  lemma TallyIsFixed(t: Tally, u: Tally)
    requires forall a :: t.Of(a) == u.Of(a)
    ensures t == u
  {
    assert t.Of(Create) == u.Of(Create) && t.Of(Update) == u.Of(Update) && t.Of(Read) == u.Of(Read);
    assert t.Of(NoOp) == u.Of(NoOp) && t.Of(Delete) == u.Of(Delete) && t.Of(Replace) == u.Of(Replace);
  }

  /** A plan has one faithful summary. */
  lemma FaithfulIsUnique(p: Plan, s: Summary, s': Summary, digest: string -> string)
    requires Summarizable(p) && Faithful(p, s, digest) && Faithful(p, s', digest)
    ensures s == s'
  {
    var c, c' := s.content, s'.content;
    TallyIsFixed(c.counts, c'.counts);
    TallyIsFixed(c.outputCounts, c'.outputCounts);
    OneArrangement(c.resourceActions, c'.resourceActions, ResourceKey);
    OneArrangement(c.outputActions, c'.outputActions, OutputKey);
  }

  // ---------------------------------------------------------------- order does not matter

  lemma {:induction false} CountWithout<T(!new)>(xs: seq<T>, k: nat, kind: T -> Option<Action>, a: Action)
    requires k < |xs|
    ensures Count(xs, kind, a) == Count(xs[..k] + xs[k + 1..], kind, a) + if kind(xs[k]) == Some(a) then 1 else 0
  {
    var rest, front := xs[..k] + xs[k + 1..], xs[..|xs| - 1];
    if k == |xs| - 1 {
      assert rest == front;
    } else {
      WithoutInner(xs, k);
      CountWithout(front, k, kind, a);
    }
  }

  lemma {:induction false} CountOfPermutation<T(!new)>(xs: seq<T>, ys: seq<T>, kind: T -> Option<Action>, a: Action)
    requires multiset(xs) == multiset(ys)
    ensures Count(xs, kind, a) == Count(ys, kind, a) && |xs| == |ys|
  {
    SameMembers(xs, ys);
    if xs != [] {
      var k := LastElsewhere(xs, ys);
      CountWithout(ys, k, kind, a);
      CountOfPermutation(xs[..|xs| - 1], ys[..k] + ys[k + 1..], kind, a);
    }
  }

  lemma {:induction false} ManifestWithout(rs: seq<ResourceChange>, k: nat, digest: string -> string)
    requires k < |rs| && AllKnown(rs, ResourceKind)
    ensures multiset(ResourceManifest(rs, digest))
            == multiset(ResourceManifest(rs[..k] + rs[k + 1..], digest)) + multiset(EntryFor(rs[k], digest))
  {
    hide EntryFor;
    var rest, front := rs[..k] + rs[k + 1..], rs[..|rs| - 1];
    if k == |rs| - 1 {
      assert rest == front;
    } else {
      WithoutInner(rs, k);
      ManifestWithout(front, k, digest);
    }
  }

  lemma {:induction false} ManifestOfPermutation(xs: seq<ResourceChange>, ys: seq<ResourceChange>, digest: string -> string)
    requires multiset(xs) == multiset(ys) && AllKnown(xs, ResourceKind) && AllKnown(ys, ResourceKind)
    ensures multiset(ResourceManifest(xs, digest)) == multiset(ResourceManifest(ys, digest))
  {
    hide ResourceManifest, EntryFor;
    SameMembers(xs, ys);
    if xs != [] {
      var k := LastElsewhere(xs, ys);
      ManifestWithout(ys, k, digest);
      ManifestOfPermutation(xs[..|xs| - 1], ys[..k] + ys[k + 1..], digest);
      ManifestSteps(xs, digest);
    }
  }

  lemma ManifestSteps(rs: seq<ResourceChange>, digest: string -> string)
    requires rs != [] && AllKnown(rs, ResourceKind)
    ensures multiset(ResourceManifest(rs, digest))
            == multiset(ResourceManifest(rs[..|rs| - 1], digest)) + multiset(EntryFor(rs[|rs| - 1], digest))
  {
    hide EntryFor;
  }

  /** The summary is canonical: plans that list the same changes in another order get the
      same summary, digest included. */
  lemma SummaryIsCanonical(p: Plan, q: Plan, s: Summary, t: Summary, digest: string -> string)
    requires Summarizable(p) && Summarizable(q) && Faithful(p, s, digest) && Faithful(q, t, digest)
    requires multiset(p.resources) == multiset(q.resources) && q == p.(resources := q.resources)
    ensures s == t
  {
    forall a ensures Count(p.resources, ResourceKind, a) == Count(q.resources, ResourceKind, a) && |p.resources| == |q.resources| {
      CountOfPermutation(p.resources, q.resources, ResourceKind, a);
    }
    ManifestOfPermutation(p.resources, q.resources, digest);
    assert |p.resources| == |q.resources| by { SameMembers(p.resources, q.resources); }
    assert Faithful(p, t, digest);
    FaithfulIsUnique(p, s, t, digest);
  }

  // ---------------------------------------------------------------- the summary and its validation

  function Classify(counts: Tally, outputs: Tally): Result<Class, PlanError> {
    if counts.delete != 0 || counts.replace != 0 then Err(Destructive)
    else if counts.create == counts.update == counts.read == outputs.create == outputs.update == outputs.delete == 0
    then Ok(NoChangeClass)
    else Ok(ChangeClass)
  }

  lemma TallyPush<T(!new)>(t: Tally, xs: seq<T>, i: nat, kind: T -> Option<Action>, a: Action)
    requires i < |xs| && TallyOf(t, xs[..i], kind) && kind(xs[i]) == Some(a)
    ensures TallyOf(t.Plus(a), xs[..i + 1], kind)
  {
    assert xs[..i + 1][..i] == xs[..i];
    forall b ensures t.Plus(a).Of(b) == Count(xs[..i + 1], kind, b) {
      assert t.Of(b) == Count(xs[..i], kind, b);
    }
  }

  /** The state of the walk over the outputs after the first i. */
  ghost predicate OutputsSoFar(os: seq<OutputChange>, i: nat, counts: Tally, actions: seq<OutputAction>) {
    && i <= |os| && OutputsUsable(os[..i]) && TallyOf(counts, os[..i], OutputKind) && actions == OutputManifest(os[..i])
  }

  lemma NextOutput(os: seq<OutputChange>, i: nat, counts: Tally, actions: seq<OutputAction>)
    requires OutputsSoFar(os, i, counts, actions) && i < |os|
    ensures Identifier(os[i].name) && OutputKind(os[i]).Some? ==>
      OutputsSoFar(os, i + 1, counts.Plus(OutputKind(os[i]).value), actions + OutputEntryFor(os[i]))
    ensures !Identifier(os[i].name) || OutputKind(os[i]) == None ==> !OutputsUsable(os)
    ensures actions + [] == actions
  {
    hide Identifier, OutputEntryFor, TallyOf;
    assert os[..i + 1][..i] == os[..i];
    if Identifier(os[i].name) && OutputKind(os[i]).Some? {
      TallyPush(counts, os, i, OutputKind, OutputKind(os[i]).value);
    }
  }

  lemma AllOutputs(os: seq<OutputChange>, counts: Tally, actions: seq<OutputAction>)
    requires OutputsSoFar(os, |os|, counts, actions) && DistinctKeys(os, OutputName)
    ensures OutputsUsable(os) && TallyOf(counts, os, OutputKind) && |actions| == |os| - Count(os, OutputKind, NoOp)
    ensures multiset(Sorted(actions, OutputKey)) == multiset(OutputManifest(os)) && StrictlySorted(Sorted(actions, OutputKey), OutputKey)
  {
    assert os[..|os|] == os;
    OutputManifestLength(os);
    OutputKeysDiffer(os);
    SortedIsPermutation(actions, OutputKey);
  }

  method SummarizeOutputs(os: seq<OutputChange>) returns (r: Result<(Tally, seq<OutputAction>), PlanError>)
    requires DistinctKeys(os, OutputName)
    ensures r.Ok? <==> OutputsUsable(os) && |os| - Count(os, OutputKind, NoOp) <= MAX_OUTPUTS
    ensures r.Ok? ==> TallyOf(r.value.0, os, OutputKind)
    ensures r.Ok? ==> multiset(r.value.1) == multiset(OutputManifest(os)) && StrictlySorted(r.value.1, OutputKey)
    ensures r.Err? ==> r.error in {MalformedOutput, UnknownAction, TooManyChanges}
  {
    var counts, actions: seq<OutputAction> := NOTHING, [];
    assert OutputsSoFar(os, 0, counts, actions);
    hide OutputsSoFar, OutputsUsable, TallyOf, Identifier, OutputKind;
    for i := 0 to |os|
      invariant OutputsSoFar(os, i, counts, actions)
    {
      NextOutput(os, i, counts, actions);
      var kind := OutputKind(os[i]);
      if !Identifier(os[i].name) { return Err(MalformedOutput); }
      if kind == None { return Err(UnknownAction); }
      counts := counts.Plus(kind.value);
      if kind.value != NoOp {
        actions := actions + [OutputAction(os[i].name, kind.value)];
      }
    }
    AllOutputs(os, counts, actions);
    if |actions| > MAX_OUTPUTS { return Err(TooManyChanges); }
    r := Ok((counts, Sorted(actions, OutputKey)));
  }

  /** The state of the walk over the resources after the first i. */
  ghost predicate ResourcesSoFar(rs: seq<ResourceChange>, digest: string -> string, i: nat,
                                 counts: Tally, addresses: set<string>, actions: seq<ResourceAction>)
  {
    && i <= |rs| && ResourcesUsable(rs[..i]) && TallyOf(counts, rs[..i], ResourceKind)
    && actions == ResourceManifest(rs[..i], digest) && addresses == (set r | r in rs[..i] :: Address(r))
  }

  lemma NextResource(rs: seq<ResourceChange>, digest: string -> string, i: nat,
                     counts: Tally, addresses: set<string>, actions: seq<ResourceAction>)
    requires ResourcesSoFar(rs, digest, i, counts, addresses, actions) && i < |rs|
    ensures var good := Address(rs[i]) !in addresses && ResourceUsable(rs[i]) && ResourceKind(rs[i]).Some?;
            && (good ==> ResourcesSoFar(rs, digest, i + 1, counts.Plus(ResourceKind(rs[i]).value),
                                        addresses + {Address(rs[i])}, actions + EntryFor(rs[i], digest)))
            && (!good ==> !ResourcesUsable(rs))
    ensures actions + [] == actions
  {
    hide ResourceUsable, EntryFor, TallyOf;
    var r := rs[i];
    assert rs[..i + 1][..i] == rs[..i];
    if Address(r) in addresses {
      var r' :| r' in rs[..i] && Address(r') == Address(r);
      var j :| 0 <= j < i && rs[j] == r';
    } else if ResourceUsable(r) && ResourceKind(r).Some? {
      TallyPush(counts, rs, i, ResourceKind, ResourceKind(r).value);
      forall j, k | 0 <= j < k < i + 1 ensures Address(rs[j]) != Address(rs[k]) {
        assert rs[..i][j] == rs[j];
        if k < i {
          assert rs[..i][k] == rs[k];
        }
      }
      assert (set x | x in rs[..i + 1] :: Address(x)) == addresses + {Address(r)} by {
        assert forall x :: x in rs[..i + 1] <==> x in rs[..i] || x == r;
      }
    }
  }

  lemma AllResources(rs: seq<ResourceChange>, digest: string -> string,
                     counts: Tally, addresses: set<string>, actions: seq<ResourceAction>)
    requires ResourcesSoFar(rs, digest, |rs|, counts, addresses, actions) && Separates(digest, rs)
    ensures ResourcesUsable(rs) && TallyOf(counts, rs, ResourceKind) && |actions| == |rs| - Count(rs, ResourceKind, NoOp)
    ensures multiset(Sorted(actions, ResourceKey)) == multiset(ResourceManifest(rs, digest))
    ensures StrictlySorted(Sorted(actions, ResourceKey), ResourceKey)
  {
    assert rs[..|rs|] == rs;
    ResourceManifestLength(rs, digest);
    ResourceKeysDiffer(rs, digest);
    SortedIsPermutation(actions, ResourceKey);
  }

  method SummarizeResources(rs: seq<ResourceChange>, digest: string -> string)
    returns (r: Result<(Tally, seq<ResourceAction>), PlanError>)
    requires Separates(digest, rs)
    ensures r.Ok? <==> ResourcesUsable(rs) && |rs| - Count(rs, ResourceKind, NoOp) <= MAX_RESOURCES
    ensures r.Ok? ==> TallyOf(r.value.0, rs, ResourceKind)
    ensures r.Ok? ==> multiset(r.value.1) == multiset(ResourceManifest(rs, digest)) && StrictlySorted(r.value.1, ResourceKey)
    ensures r.Err? ==> r.error in {MalformedResource, UnknownAction, TooManyChanges}
  {
    var counts, addresses: set<string>, actions: seq<ResourceAction> := NOTHING, {}, [];
    assert ResourcesSoFar(rs, digest, 0, counts, addresses, actions);
    hide ResourcesSoFar, ResourcesUsable, TallyOf, ResourceUsable, Separates, ResourceKind;
    for i := 0 to |rs|
      invariant ResourcesSoFar(rs, digest, i, counts, addresses, actions)
    {
      NextResource(rs, digest, i, counts, addresses, actions);
      var address := Address(rs[i]);
      if address in addresses || !ResourceUsable(rs[i]) { return Err(MalformedResource); }
      addresses := addresses + {address};
      var kind := ResourceKind(rs[i]);
      if kind == None { return Err(UnknownAction); }
      counts := counts.Plus(kind.value);
      if kind.value != NoOp {
        actions := actions + [ResourceAction(rs[i].kind, rs[i].name, kind.value, digest(rs[i].address))];
      }
    }
    AllResources(rs, digest, counts, addresses, actions);
    if |actions| > MAX_RESOURCES { return Err(TooManyChanges); }
    r := Ok((counts, Sorted(actions, ResourceKey)));
  }

  /** The flag "applyable" that the counts call for. */
  predicate MaterialCounts(counts: Tally, outputs: Tally) {
    counts.create > 0 || counts.update > 0 || counts.read > 0 || counts.delete > 0 || counts.replace > 0
    || outputs.create > 0 || outputs.update > 0 || outputs.delete > 0
  }

  lemma FromCounts(p: Plan, counts: Tally, outputs: Tally)
    requires AllKnown(p.resources, ResourceKind) && AllKnown(p.outputs, OutputKind)
    requires TallyOf(counts, p.resources, ResourceKind) && TallyOf(outputs, p.outputs, OutputKind)
    ensures Material(p) <==> MaterialCounts(counts, outputs)
    ensures Classify(counts, outputs).Err? <==>
      Count(p.resources, ResourceKind, Delete) != 0 || Count(p.resources, ResourceKind, Replace) != 0
    ensures Classify(counts, outputs).Ok? ==> Classify(counts, outputs).value == (if Material(p) then ChangeClass else NoChangeClass)
    ensures Classify(counts, outputs).Err? ==> Classify(counts, outputs) == Err(Destructive)
  {
    hide Count, TallyOf, AllKnown;
    TallyNumbers(counts, p.resources, ResourceKind);
    TallyNumbers(outputs, p.outputs, OutputKind);
    OutputsNeverRead(p.outputs);
  }

  /** A plan is summarized exactly if it is summarizable, and then faithfully. */
  method Summarize(p: Plan, digest: string -> string) returns (r: Result<Summary, PlanError>)
    requires DistinctKeys(p.outputs, OutputName) && Separates(digest, p.resources)
    ensures r.Ok? <==> Summarizable(p)
    ensures r.Ok? ==> Faithful(p, r.value, digest) && ValidSummary(r.value)
    ensures r == Err(Contradiction) ==> p.applyable != Material(p)
    ensures r == Err(Destructive) ==> Count(p.resources, ResourceKind, Delete) + Count(p.resources, ResourceKind, Replace) > 0
  {
    hide Complete, Count, TallyOf, ResourceManifest, OutputManifest, StrictlySorted, Separates, ValidSummary;
    hide DistinctKeys, Material, MaterialCounts, Classify, ResourceUsable, Identifier;
    if !Complete(p) { return Err(Incomplete); }
    var outputs := SummarizeOutputs(p.outputs);
    if outputs.Err? { return Err(outputs.error); }
    var resources := SummarizeResources(p.resources, digest);
    if resources.Err? { return Err(resources.error); }
    var counts, outputCounts := resources.value.0, outputs.value.0;
    FromCounts(p, counts, outputCounts);
    if p.applyable != MaterialCounts(counts, outputCounts) { return Err(Contradiction); }
    var classified := Classify(counts, outputCounts);
    if classified.Err? { return Err(classified.error); }
    var content := Content(counts, outputCounts, p.applyable, |p.resources|, resources.value.1,
                           |p.outputs|, outputs.value.1, classified.value);
    r := Ok(Summary(content, DigestOf(content)));
    OnlyDigests(digest, p.resources);
    FaithfulIsValid(p, r.value, digest);
  }

  lemma OnlyDigests(digest: string -> string, rs: seq<ResourceChange>)
    requires Separates(digest, rs)
    ensures forall x :: IsDigest(digest(x))
  {
  }

  /** For distinct keys, being equal to its own sorting is being strictly sorted. */
  lemma SortedIsFixed<T(!new)>(xs: seq<T>, key: T -> string)
    requires DistinctKeys(xs, key)
    ensures Sorted(xs, key) == xs <==> StrictlySorted(xs, key)
  {
    SortedIsPermutation(xs, key);
    if StrictlySorted(xs, key) {
      OneArrangement(Sorted(xs, key), xs, key);
    }
  }

  method ResourceActionsValid(xs: seq<ResourceAction>) returns (ok: bool)
    ensures ok <==> StrictlySorted(xs, ResourceKey) && forall r :: r in xs ==> EntryWellFormed(r)
  {
    var digests: set<string> := {};
    hide EntryWellFormed;
    for i := 0 to |xs|
      invariant DistinctKeys(xs[..i], ResourceKey) && forall r :: r in xs[..i] ==> EntryWellFormed(r)
      invariant forall x :: x in digests <==> exists j :: 0 <= j < i && ResourceKey(xs[j]) == x
    {
      if !EntryWellFormed(xs[i]) { return false; }
      if ResourceKey(xs[i]) in digests {
        var j :| 0 <= j < i && ResourceKey(xs[j]) == ResourceKey(xs[i]);
        LessIsTotal(ResourceKey(xs[j]), ResourceKey(xs[i]));
        return false;
      }
      digests := digests + {ResourceKey(xs[i])};
    }
    assert xs[..|xs|] == xs;
    SortedIsFixed(xs, ResourceKey);
    ok := xs == Sorted(xs, ResourceKey);
  }

  method OutputActionsValid(xs: seq<OutputAction>) returns (ok: bool)
    ensures ok <==> StrictlySorted(xs, OutputKey) && forall o :: o in xs ==> OutputWellFormed(o)
  {
    var names: set<string> := {};
    hide OutputWellFormed;
    for i := 0 to |xs|
      invariant DistinctKeys(xs[..i], OutputKey) && forall o :: o in xs[..i] ==> OutputWellFormed(o)
      invariant forall x :: x in names <==> exists j :: 0 <= j < i && OutputKey(xs[j]) == x
    {
      if !OutputWellFormed(xs[i]) { return false; }
      if OutputKey(xs[i]) in names {
        var j :| 0 <= j < i && OutputKey(xs[j]) == OutputKey(xs[i]);
        LessIsTotal(OutputKey(xs[j]), OutputKey(xs[i]));
        return false;
      }
      names := names + {OutputKey(xs[i])};
    }
    assert xs[..|xs|] == xs;
    SortedIsFixed(xs, OutputKey);
    ok := xs == Sorted(xs, OutputKey);
  }

  /** The validation of a stored summary. The record of output counts has no field for
      reads and replacements: here they are zero. */
  method Validate(s: Summary) returns (ok: bool)
    ensures ok <==> ValidSummary(s)
  {
    var c := s.content;
    if !(c.counts.NonNegative() && c.outputCounts.NonNegative() && c.outputCounts.read == c.outputCounts.replace == 0
         && c.counts.Sum() == c.resourceCount && |c.resourceActions| == c.resourceCount - c.counts.noOp <= MAX_RESOURCES
         && c.outputCounts.Sum() == c.outputCount && |c.outputActions| == c.outputCount - c.outputCounts.noOp <= MAX_OUTPUTS)
    {
      return false;
    }
    hide StrictlySorted, EntryWellFormed, OutputWellFormed;
    var resources := ResourceActionsValid(c.resourceActions);
    if !resources { return false; }
    var outputs := OutputActionsValid(c.outputActions);
    if !outputs { return false; }
    var classified := Classify(c.counts, c.outputCounts);
    ok := classified == Ok(c.classification) && (c.applyable <==> classified == Ok(ChangeClass)) && s.digest == DigestOf(c);
  }

  // ---------------------------------------------------------------- the summary in plain words

  /** What Terraform's lists of actions stand for. */
  lemma KindsSpelled(actions: seq<string>)
    ensures Kind(actions) == Some(Create) <==> actions == ["create"]
    ensures Kind(actions) == Some(Update) <==> actions == ["update"]
    ensures Kind(actions) == Some(Read) <==> actions == ["read"]
    ensures Kind(actions) == Some(NoOp) <==> actions == ["no-op"]
    ensures Kind(actions) == Some(Delete) <==> actions == ["delete"]
    ensures Kind(actions) == Some(Replace) <==> actions in [["delete", "create"], ["create", "delete"]]
  {
    assert "create"[0] != "update"[0] && "create"[0] != "read"[0] && "create"[0] != "no-op"[0] && "create"[0] != "delete"[0];
    assert "update"[0] != "read"[0] && "update"[0] != "no-op"[0] && "update"[0] != "delete"[0];
    assert "read"[0] != "no-op"[0] && "read"[0] != "delete"[0] && "no-op"[0] != "delete"[0];
    assert ["create"][0] != ["update"][0] && ["create"][0] != ["read"][0] && ["create"][0] != ["no-op"][0] && ["create"][0] != ["delete"][0];
    assert ["update"][0] != ["read"][0] && ["update"][0] != ["no-op"][0] && ["update"][0] != ["delete"][0];
    assert ["read"][0] != ["no-op"][0] && ["read"][0] != ["delete"][0] && ["no-op"][0] != ["delete"][0];
  }

  /** Types and names are at most 128 letters, digits, underscores and dashes, and begin with
      a letter or an underscore. */
  lemma IdentifiersSpelled(s: string)
    ensures Identifier(s) <==>
      && 1 <= |s| <= 128 && s[0] != '-' && !('0' <= s[0] <= '9')
      && forall c :: c in s ==> 'a' <= c <= 'z' || 'A' <= c <= 'Z' || '0' <= c <= '9' || c in "_-"
  {
    if s != [] {
      assert s[0] in s && forall i :: 0 <= i < |s| ==> s[i] in s;
    }
  }

  /** Which changes are of one kind. */
  ghost function Indices<T>(xs: seq<T>, kind: T -> Option<Action>, a: Action): set<nat> {
    set i: nat | i < |xs| && kind(xs[i]) == Some(a)
  }

  lemma IndicesOfFront<T>(xs: seq<T>, kind: T -> Option<Action>, a: Action)
    requires xs != []
    ensures var n := |xs| - 1;
            Indices(xs, kind, a) == Indices(xs[..n], kind, a) + (if kind(xs[n]) == Some(a) then {n} else {})
            && n !in Indices(xs[..n], kind, a)
  {
  }

  lemma {:induction false} CountIsCardinality<T(!new)>(xs: seq<T>, kind: T -> Option<Action>, a: Action)
    ensures Count(xs, kind, a) == |Indices(xs, kind, a)|
  {
    if xs == [] {
      assert Indices(xs, kind, a) == {};
    } else {
      CountIsCardinality(xs[..|xs| - 1], kind, a);
      IndicesOfFront(xs, kind, a);
      hide Indices;
    }
  }

  /** The lists of actions that stand for each kind. */
  function Spelled(a: Action): seq<seq<string>> {
    match a
    case Create => [["create"]]
    case Update => [["update"]]
    case Read => [["read"]]
    case NoOp => [["no-op"]]
    case Delete => [["delete"]]
    case Replace => [["delete", "create"], ["create", "delete"]]
  }

  /** How many resource changes have one of these lists of actions. */
  ghost function Having(rs: seq<ResourceChange>, lists: seq<seq<string>>): nat {
    |set i: nat | i < |rs| && rs[i].actions in lists|
  }

  ghost function OutputsHaving(os: seq<OutputChange>, lists: seq<seq<string>>): nat {
    |set i: nat | i < |os| && os[i].actions in lists|
  }

  lemma HavingIsCount(rs: seq<ResourceChange>, a: Action)
    ensures Having(rs, Spelled(a)) == Count(rs, ResourceKind, a)
  {
    hide Kind;
    CountIsCardinality(rs, ResourceKind, a);
    forall i: nat | i < |rs| ensures Kind(rs[i].actions) == Some(a) <==> rs[i].actions in Spelled(a) { KindsSpelled(rs[i].actions); }
    assert (set i: nat | i < |rs| && rs[i].actions in Spelled(a)) == Indices(rs, ResourceKind, a);
  }

  lemma OutputsHavingIsCount(os: seq<OutputChange>, a: Action)
    requires a !in {Read, Replace}
    ensures OutputsHaving(os, Spelled(a)) == Count(os, OutputKind, a)
  {
    hide Kind;
    CountIsCardinality(os, OutputKind, a);
    forall i: nat | i < |os| ensures Kind(os[i].actions) == Some(a) <==> os[i].actions in Spelled(a) { KindsSpelled(os[i].actions); }
    assert (set i: nat | i < |os| && os[i].actions in Spelled(a)) == Indices(os, OutputKind, a);
  }

  /** The counts of a summary, by what stands in the plan. */
  lemma CountsSpelled(p: Plan, s: Summary, digest: string -> string)
    requires Summarizable(p) && Faithful(p, s, digest)
    ensures var c, rs := s.content.counts, p.resources;
            && c.create == Having(rs, [["create"]]) && c.update == Having(rs, [["update"]]) && c.read == Having(rs, [["read"]])
            && c.noOp == Having(rs, [["no-op"]]) && c.delete == Having(rs, [["delete"]]) == 0
            && c.replace == Having(rs, [["delete", "create"], ["create", "delete"]]) == 0
    ensures var c, os := s.content.outputCounts, p.outputs;
            && c.create == OutputsHaving(os, [["create"]]) && c.update == OutputsHaving(os, [["update"]])
            && c.delete == OutputsHaving(os, [["delete"]]) && c.noOp == OutputsHaving(os, [["no-op"]]) && c.read == c.replace == 0
  {
    hide Count, TallyOf, Having, OutputsHaving, AllKnown, ResourceManifest, OutputManifest, StrictlySorted, Material, Complete;
    forall a ensures Having(p.resources, Spelled(a)) == Count(p.resources, ResourceKind, a) { HavingIsCount(p.resources, a); }
    forall a | a !in {Read, Replace} ensures OutputsHaving(p.outputs, Spelled(a)) == Count(p.outputs, OutputKind, a) {
      OutputsHavingIsCount(p.outputs, a);
    }
    TallyNumbers(s.content.counts, p.resources, ResourceKind);
    TallyNumbers(s.content.outputCounts, p.outputs, OutputKind);
    OutputsNeverRead(p.outputs);
  }

  lemma {:induction false} ManifestMembers(rs: seq<ResourceChange>, digest: string -> string, e: ResourceAction)
    requires AllKnown(rs, ResourceKind)
    ensures e in ResourceManifest(rs, digest) <==> exists r :: r in rs && e in EntryFor(r, digest)
  {
    if rs != [] {
      var front, last := rs[..|rs| - 1], rs[|rs| - 1];
      ManifestMembers(front, digest, e);
      hide EntryFor;
      assert rs == front + [last];
    }
  }

  /** The entries of a summary are exactly those of the resource changes that do something:
      type and name of the change, the digest of its address, and what its actions say. */
  lemma EntriesSpelled(p: Plan, s: Summary, digest: string -> string, e: ResourceAction)
    requires Summarizable(p) && Faithful(p, s, digest)
    ensures e in s.content.resourceActions <==>
      exists r :: r in p.resources && r.actions in Spelled(e.action) && e.action != NoOp
        && e.kind == r.kind && e.name == r.name && e.addressDigest == digest(r.address)
  {
    hide Kind, Complete, Material, StrictlySorted, TallyOf, Count, EntryFor, Spelled, ResourceManifest, OutputManifest;
    assert e in s.content.resourceActions <==> e in multiset(ResourceManifest(p.resources, digest));
    ManifestMembers(p.resources, digest, e);
    forall r | r in p.resources
      ensures e in EntryFor(r, digest) <==>
        r.actions in Spelled(e.action) && e.action != NoOp && e.kind == r.kind && e.name == r.name && e.addressDigest == digest(r.address)
    {
      EntrySpelled(r, digest, e);
    }
  }

  lemma EntrySpelled(r: ResourceChange, digest: string -> string, e: ResourceAction)
    requires ResourceKind(r).Some?
    ensures e in EntryFor(r, digest) <==>
      r.actions in Spelled(e.action) && e.action != NoOp && e.kind == r.kind && e.name == r.name && e.addressDigest == digest(r.address)
  {
    hide Kind;
    KindIsSpelled(r.actions, e.action);
    KindIsSpelled(r.actions, NoOp);
  }

  lemma OutputEntrySpelled(o: OutputChange, e: OutputAction)
    requires OutputKind(o).Some?
    ensures e in OutputEntryFor(o) <==> o.actions in Spelled(e.action) && e.action in {Create, Update, Delete} && e.name == o.name
  {
    hide Kind;
    KindIsSpelled(o.actions, e.action);
    KindIsSpelled(o.actions, NoOp);
    EveryAction(e.action);
  }

  lemma EveryAction(a: Action)
    ensures a in {Create, Update, Delete} <==> a !in {Read, Replace, NoOp}
  {
    match a
    case _ =>
  }

  lemma KindIsSpelled(actions: seq<string>, a: Action)
    ensures Kind(actions) == Some(a) <==> actions in Spelled(a)
  {
    hide Kind;
    KindsSpelled(actions);
  }

  /** A known list of actions that destroys nothing. */
  lemma HarmlessSpelled(actions: seq<string>)
    requires Kind(actions).Some? && Kind(actions) !in {Some(Delete), Some(Replace)}
    ensures actions in [["create"], ["update"], ["read"], ["no-op"]]
  {
    hide Kind;
    KindsSpelled(actions);
    match Kind(actions).value
    case Create =>
    case Update =>
    case Read =>
    case NoOp =>
    case _ =>
  }

  lemma OutputKindsSpelled(o: OutputChange)
    requires OutputKind(o).Some?
    ensures o.actions in [["create"], ["update"], ["delete"], ["no-op"]]
  {
    hide Kind;
    KindsSpelled(o.actions);
    match Kind(o.actions).value
    case Create =>
    case Update =>
    case Delete =>
    case NoOp =>
    case _ =>
  }

  lemma {:induction false} OutputManifestMembers(os: seq<OutputChange>, e: OutputAction)
    requires AllKnown(os, OutputKind)
    ensures e in OutputManifest(os) <==> exists o :: o in os && e in OutputEntryFor(o)
  {
    if os != [] {
      var front, last := os[..|os| - 1], os[|os| - 1];
      OutputManifestMembers(front, e);
      hide OutputEntryFor;
      assert os == front + [last];
    }
  }

  /** The same for outputs. */
  lemma OutputEntriesSpelled(p: Plan, s: Summary, digest: string -> string, e: OutputAction)
    requires Summarizable(p) && Faithful(p, s, digest)
    ensures e in s.content.outputActions <==>
      exists o :: o in p.outputs && o.actions in Spelled(e.action) && e.action in {Create, Update, Delete} && e.name == o.name
  {
    hide Kind, Complete, Material, StrictlySorted, TallyOf, Count, OutputEntryFor, Spelled, ResourceManifest, OutputManifest;
    assert e in s.content.outputActions <==> e in multiset(OutputManifest(p.outputs));
    OutputManifestMembers(p.outputs, e);
    forall o | o in p.outputs
      ensures e in OutputEntryFor(o) <==> o.actions in Spelled(e.action) && e.action in {Create, Update, Delete} && e.name == o.name
    {
      OutputEntrySpelled(o, e);
    }
  }

  /** Only plans of the supported format that are complete, free of errors, drift, deferred
      changes and destruction are summarized. */
  lemma OnlySafePlans(p: Plan)
    requires Summarizable(p)
    ensures p.format == "1.2" && p.terraform != "" && p.complete && !p.errored && !p.unsupported
    ensures forall r :: r in p.resources ==>
      && r.actions in [["create"], ["update"], ["read"], ["no-op"]] && !r.moved && !r.deposed && !r.importing
      && r.address != "" && Encoded(r.address) <= 4096 && Identifier(r.kind) && Identifier(r.name)
    ensures forall i, j :: 0 <= i < |p.resources| && 0 <= j < |p.resources| && p.resources[i].address == p.resources[j].address ==> i == j
    ensures forall o :: o in p.outputs ==> o.actions in [["create"], ["update"], ["delete"], ["no-op"]] && Identifier(o.name)
  {
    hide Kind, Count, Identifier, Encoded;
    CountIsCardinality(p.resources, ResourceKind, Delete);
    CountIsCardinality(p.resources, ResourceKind, Replace);
    forall r | r in p.resources ensures r.actions in [["create"], ["update"], ["read"], ["no-op"]] && ResourceUsable(r) {
      var i: nat :| i < |p.resources| && p.resources[i] == r;
      assert i !in Indices(p.resources, ResourceKind, Delete) && i !in Indices(p.resources, ResourceKind, Replace);
      HarmlessSpelled(r.actions);
    }
    forall o | o in p.outputs ensures o.actions in [["create"], ["update"], ["delete"], ["no-op"]] && Identifier(o.name) {
      OutputKindsSpelled(o);
    }
  }
}
