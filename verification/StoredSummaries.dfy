/** What the validation of a stored summary does and does not tell about the plan behind it:
    it checks the counts and the manifests, but never compares one with the other. */
module StoredSummaries {
  import opened Digests
  import opened Ordering
  import opened Outcomes
  import opened PlanSummary

  function EntryKind(e: ResourceAction): Option<Action> {
    Some(e.action)
  }

  function OutputEntryKind(e: OutputAction): Option<Action> {
    Some(e.action)
  }

  /** The counts are those of the entries. */
  predicate CountsMatchEntries(c: Content) {
    && c.counts.create == Count(c.resourceActions, EntryKind, Create)
    && c.counts.update == Count(c.resourceActions, EntryKind, Update)
    && c.counts.read == Count(c.resourceActions, EntryKind, Read)
    && c.outputCounts.create == Count(c.outputActions, OutputEntryKind, Create)
    && c.outputCounts.update == Count(c.outputActions, OutputEntryKind, Update)
    && c.outputCounts.delete == Count(c.outputActions, OutputEntryKind, Delete)
  }

  /** The same summary without the changes that do nothing, of which it keeps only the count. */
  function WithoutNoOps(s: Summary): Summary {
    var c := s.content;
    var d := c.(counts := c.counts.(noOp := 0), resourceCount := c.resourceCount - c.counts.noOp,
                outputCounts := c.outputCounts.(noOp := 0), outputCount := c.outputCount - c.outputCounts.noOp);
    Summary(d, DigestOf(d))
  }

  /** Some plan that can be summarized has this summary. */
  ghost predicate Summarizes(p: Plan, s: Summary, digest: string -> string) {
    && DistinctKeys(p.outputs, OutputName) && Separates(digest, p.resources) && Summarizable(p) && Faithful(p, s, digest)
  }

  // ---------------------------------------------------------------- a plan with given entries

  function ChangeOf(e: ResourceAction): (r: ResourceChange) {
    ResourceChange(e.addressDigest, e.kind, e.name, Spelled(e.action)[0], false, false, false)
  }

  function ChangesOf(es: seq<ResourceAction>): (rs: seq<ResourceChange>)
    ensures |rs| == |es| && forall i :: 0 <= i < |es| ==> rs[i] == ChangeOf(es[i])
  {
    if es == [] then [] else ChangesOf(es[..|es| - 1]) + [ChangeOf(es[|es| - 1])]
  }

  function OutputOf(e: OutputAction): (o: OutputChange) {
    OutputChange(e.name, Spelled(e.action)[0])
  }

  function OutputsOf(es: seq<OutputAction>): (os: seq<OutputChange>)
    ensures |os| == |es| && forall i :: 0 <= i < |es| ==> os[i] == OutputOf(es[i])
  {
    if es == [] then [] else OutputsOf(es[..|es| - 1]) + [OutputOf(es[|es| - 1])]
  }

  lemma ChangeKind(a: Action)
    ensures Kind(Spelled(a)[0]) == Some(a)
  {
    hide Kind;
    KindIsSpelled(Spelled(a)[0], a);
    match a case Create => case Update => case Read => case NoOp => case Delete => case Replace =>
  }

  lemma KnownOneMore<T(!new)>(xs: seq<T>, x: T, kind: T -> Option<Action>)
    ensures AllKnown(xs + [x], kind) <==> AllKnown(xs, kind) && kind(x).Some?
  {
    assert forall i :: 0 <= i < |xs| ==> (xs + [x])[i] == xs[i];
    assert (xs + [x])[|xs|] == x;
  }

  lemma NothingUnknown<T(!new)>(kind: T -> Option<Action>)
    ensures AllKnown([], kind)
  {
  }

  lemma EntryOfChange(e: ResourceAction, digest: string -> string)
    requires e.action != NoOp && digest(e.addressDigest) == e.addressDigest
    ensures ResourceKind(ChangeOf(e)) == Some(e.action) && EntryFor(ChangeOf(e), digest) == [e]
  {
    hide Kind, Spelled;
    ChangeKind(e.action);
  }

  lemma {:induction false} ManifestOfChanges(es: seq<ResourceAction>, digest: string -> string)
    requires forall e :: e in es ==> e.action != NoOp && digest(e.addressDigest) == e.addressDigest
    ensures AllKnown(ChangesOf(es), ResourceKind) && ResourceManifest(ChangesOf(es), digest) == es
  {
    hide ResourceKind, EntryFor, ChangeOf, AllKnown, ChangesOf;
    if es != [] {
      var n := |es| - 1;
      ManifestOfChanges(es[..n], digest);
      EntryOfChange(es[n], digest);
      KnownOneMore(ChangesOf(es[..n]), ChangeOf(es[n]), ResourceKind);
      assert ChangesOf(es) == ChangesOf(es[..n]) + [ChangeOf(es[n])];
      assert ChangesOf(es)[..n] == ChangesOf(es[..n]) && es[..n] + [es[n]] == es;
    } else {
      assert ChangesOf(es) == [];
      NothingUnknown<ResourceChange>(ResourceKind);
    }
  }

  lemma {:induction false} CountsOfChanges(es: seq<ResourceAction>, a: Action)
    ensures Count(ChangesOf(es), ResourceKind, a) == Count(es, EntryKind, a)
  {
    hide Kind, Spelled;
    if es != [] {
      var n := |es| - 1;
      CountsOfChanges(es[..n], a);
      ChangeKind(es[n].action);
      assert ChangesOf(es)[..n] == ChangesOf(es[..n]);
    }
  }

  lemma {:induction false} ManifestOfOutputs(es: seq<OutputAction>)
    requires forall e :: e in es ==> e.action in {Create, Update, Delete}
    ensures AllKnown(OutputsOf(es), OutputKind) && OutputManifest(OutputsOf(es)) == es
  {
    hide Kind, Spelled, AllKnown, OutputsOf, Count;
    if es != [] {
      var n := |es| - 1;
      var last := OutputOf(es[n]);
      ManifestOfOutputs(es[..n]);
      ChangeKind(es[n].action);
      KnownOneMore(OutputsOf(es[..n]), last, OutputKind);
      assert OutputsOf(es) == OutputsOf(es[..n]) + [last];
      assert OutputsOf(es)[..n] == OutputsOf(es[..n]) && es[..n] + [es[n]] == es;
    } else {
      assert OutputsOf(es) == [];
      NothingUnknown<OutputChange>(OutputKind);
    }
  }

  lemma {:induction false} CountsOfOutputs(es: seq<OutputAction>, a: Action)
    requires forall e :: e in es ==> e.action in {Create, Update, Delete}
    ensures Count(OutputsOf(es), OutputKind, a) == Count(es, OutputEntryKind, a)
  {
    hide Kind, Spelled;
    if es != [] {
      var n := |es| - 1;
      CountsOfOutputs(es[..n], a);
      ChangeKind(es[n].action);
      assert OutputsOf(es)[..n] == OutputsOf(es[..n]);
    }
  }

  lemma {:induction false} EncodedAtMost(s: string)
    ensures Encoded(s) <= 4 * |s|
  {
    if s != [] { EncodedAtMost(s[..|s| - 1]); }
  }

  /** The digest of 64 zeros. */
  function ZeroDigest(): (s: string)
    ensures IsDigest(s)
  {
    var digits: seq<Nibble> := seq(64, (i: nat) => 0 as Nibble);
    DigestsAreTexts(Text(digits));
    Text(digits)
  }

  /** Digests of addresses that are digests already. */
  function Itself(x: string): (d: string)
    ensures IsDigest(d) && (IsDigest(x) ==> d == x)
  {
    if IsDigest(x) then x else ZeroDigest()
  }

  // ---------------------------------------------------------------- the counts tell the entries

  lemma CountOneMore<T(!new)>(xs: seq<T>, x: T, kind: T -> Option<Action>, a: Action)
    ensures Count(xs + [x], kind, a) == Count(xs, kind, a) + if kind(x) == Some(a) then 1 else 0
    ensures Count(xs + [], kind, a) == Count(xs, kind, a)
  {
    assert (xs + [x])[..|xs|] == xs && xs + [] == xs;
  }

  lemma {:induction false} ManifestCounts(rs: seq<ResourceChange>, digest: string -> string, a: Action)
    requires AllKnown(rs, ResourceKind) && a != NoOp
    ensures Count(ResourceManifest(rs, digest), EntryKind, a) == Count(rs, ResourceKind, a)
  {
    hide Kind;
    if rs != [] {
      var front, last := rs[..|rs| - 1], rs[|rs| - 1];
      ManifestCounts(front, digest, a);
      var entry := ResourceAction(last.kind, last.name, ResourceKind(last).value, digest(last.address));
      CountOneMore(ResourceManifest(front, digest), entry, EntryKind, a);
    }
  }

  lemma {:induction false} OutputManifestCounts(os: seq<OutputChange>, a: Action)
    requires AllKnown(os, OutputKind) && a != NoOp
    ensures Count(OutputManifest(os), OutputEntryKind, a) == Count(os, OutputKind, a)
  {
    hide Kind;
    if os != [] {
      var front, last := os[..|os| - 1], os[|os| - 1];
      OutputManifestCounts(front, a);
      CountOneMore(OutputManifest(front), OutputAction(last.name, OutputKind(last).value), OutputEntryKind, a);
    }
  }

  /** In the summary of a plan the counts are those of the entries. */
  lemma FaithfulCountsMatch(p: Plan, s: Summary, digest: string -> string)
    requires Summarizable(p) && Faithful(p, s, digest)
    ensures CountsMatchEntries(s.content)
  {
    hide Complete, Count, TallyOf, ResourceManifest, OutputManifest, StrictlySorted, Material, ResourceUsable, Identifier;
    var c := s.content;
    TallyNumbers(c.counts, p.resources, ResourceKind);
    TallyNumbers(c.outputCounts, p.outputs, OutputKind);
    forall a: Action | a != NoOp
      ensures Count(c.resourceActions, EntryKind, a) == Count(p.resources, ResourceKind, a)
      ensures Count(c.outputActions, OutputEntryKind, a) == Count(p.outputs, OutputKind, a)
    {
      ManifestCounts(p.resources, digest, a);
      CountOfPermutation(c.resourceActions, ResourceManifest(p.resources, digest), EntryKind, a);
      OutputManifestCounts(p.outputs, a);
      CountOfPermutation(c.outputActions, OutputManifest(p.outputs), OutputEntryKind, a);
    }
  }

  lemma {:induction false} NoneCounted<T(!new)>(xs: seq<T>, kind: T -> Option<Action>, a: Action)
    requires Count(xs, kind, a) == 0
    ensures forall x :: x in xs ==> kind(x) != Some(a)
  {
    if xs != [] {
      NoneCounted(xs[..|xs| - 1], kind, a);
    }
  }

  /** If the counts match, no entry destroys a resource and none does nothing. */
  lemma NothingHidden(s: Summary)
    requires ValidSummary(s) && CountsMatchEntries(s.content)
    ensures forall e :: e in s.content.resourceActions ==> e.action in {Create, Update, Read}
    ensures s.content.counts.Sum() - s.content.counts.noOp == |s.content.resourceActions|
  {
    hide Count, StrictlySorted, EntryWellFormed, OutputWellFormed;
    var es := s.content.resourceActions;
    CountsAddUp(es, EntryKind);
    NoneCounted(es, EntryKind, NoOp);
    NoneCounted(es, EntryKind, Delete);
    NoneCounted(es, EntryKind, Replace);
    forall e | e in es ensures e.action in {Create, Update, Read} {
      assert EntryKind(e) != Some(NoOp) && EntryKind(e) != Some(Delete) && EntryKind(e) != Some(Replace);
      match e.action case Create => case Update => case Read => case _ =>
    }
  }

  // ---------------------------------------------------------------- the plan behind a summary

  function PlanOf(s: Summary): Plan {
    Plan("1.2", "1", s.content.applyable, true, false, false, OutputsOf(s.content.outputActions), ChangesOf(s.content.resourceActions))
  }

  lemma StrictlyDiffer<T(!new)>(xs: seq<T>, key: T -> string)
    requires StrictlySorted(xs, key)
    ensures DistinctKeys(xs, key)
  {
    forall i, j | 0 <= i < j < |xs| ensures key(xs[i]) != key(xs[j]) { LessIsTotal(key(xs[i]), key(xs[j])); }
  }

  lemma ChangesUsable(es: seq<ResourceAction>)
    requires StrictlySorted(es, ResourceKey)
    requires forall e :: e in es ==> EntryWellFormed(e) && e.action != NoOp
    ensures ResourcesUsable(ChangesOf(es)) && Separates(Itself, ChangesOf(es)) && ResourceManifest(ChangesOf(es), Itself) == es
  {
    hide Identifier, IsDigest, Itself, Kind, Spelled, StrictlySorted, Encoded, AllKnown, ResourceManifest;
    var rs := ChangesOf(es);
    forall e | e in es ensures IsDigest(e.addressDigest) && Itself(e.addressDigest) == e.addressDigest {}
    ManifestOfChanges(es, Itself);
    StrictlyDiffer(es, ResourceKey);
    forall i, j | 0 <= i < j < |rs| ensures Address(rs[i]) != Address(rs[j]) { assert ResourceKey(es[i]) != ResourceKey(es[j]); }
    forall i | 0 <= i < |rs| ensures ResourceUsable(rs[i]) && Itself(rs[i].address) == rs[i].address {
      assert es[i] in es;
      DigestFits(es[i].addressDigest);
    }
  }

  lemma DigestFits(d: string)
    requires IsDigest(d)
    ensures d != "" && Encoded(d) <= 4096
  {
    EncodedAtMost(d);
  }

  lemma OutputsFit(es: seq<OutputAction>)
    requires StrictlySorted(es, OutputKey) && forall e :: e in es ==> OutputWellFormed(e)
    ensures OutputsUsable(OutputsOf(es)) && DistinctKeys(OutputsOf(es), OutputName) && OutputManifest(OutputsOf(es)) == es
  {
    hide Identifier, Kind, Spelled, StrictlySorted, AllKnown, OutputManifest;
    ManifestOfOutputs(es);
    StrictlyDiffer(es, OutputKey);
    forall i, j | 0 <= i < j < |es| ensures OutputName(OutputsOf(es)[i]) != OutputName(OutputsOf(es)[j]) {
      assert OutputKey(es[i]) != OutputKey(es[j]);
    }
    forall i | 0 <= i < |es| ensures Identifier(OutputsOf(es)[i].name) { assert es[i] in es; }
  }

  lemma CountsBehind(s: Summary)
    requires ValidSummary(s) && CountsMatchEntries(s.content)
    ensures var c := WithoutNoOps(s).content;
            && TallyOf(c.counts, ChangesOf(c.resourceActions), ResourceKind)
            && TallyOf(c.outputCounts, OutputsOf(c.outputActions), OutputKind)
            && c.resourceCount == |c.resourceActions| && c.outputCount == |c.outputActions|
  {
    hide Count, Kind, StrictlySorted, EntryWellFormed, Identifier;
    var c := WithoutNoOps(s).content;
    var es, os := c.resourceActions, c.outputActions;
    NothingHidden(s);
    CountsAddUp(es, EntryKind);
    CountsAddUp(os, OutputEntryKind);
    OutputsNeverRead(OutputsOf(os));
    forall a ensures c.counts.Of(a) == Count(ChangesOf(es), ResourceKind, a) {
      CountsOfChanges(es, a);
      match a case Create => case Update => case Read => case NoOp => case Delete => case Replace =>
    }
    forall a ensures c.outputCounts.Of(a) == Count(OutputsOf(os), OutputKind, a) {
      CountsOfOutputs(os, a);
      match a case Create => case Update => case Read => case NoOp => case Delete => case Replace =>
    }
  }

  /** A valid summary whose counts match its entries is, but for the changes that do
      nothing, the summary of a plan. */
  lemma PlanBehind(s: Summary)
    requires ValidSummary(s) && CountsMatchEntries(s.content)
    ensures Summarizes(PlanOf(s), WithoutNoOps(s), Itself)
  {
    hide Count, AllKnown, ResourceUsable, StrictlySorted, EntryWellFormed, OutputWellFormed, Identifier, TallyOf, Separates, Itself;
    hide CountsMatchEntries, DistinctKeys, ChangesOf, OutputsOf, ResourceManifest, OutputManifest;
    var p, c := PlanOf(s), WithoutNoOps(s).content;
    NothingHidden(s);
    ChangesUsable(c.resourceActions);
    OutputsFit(c.outputActions);
    CountsBehind(s);
    SummarizableBehind(s);
  }

  lemma SummarizableBehind(s: Summary)
    requires ValidSummary(s) && CountsMatchEntries(s.content)
    requires ResourcesUsable(PlanOf(s).resources) && OutputsUsable(PlanOf(s).outputs)
    ensures Summarizable(PlanOf(s)) && (Material(PlanOf(s)) <==> s.content.applyable)
  {
    hide Count, AllKnown, ResourceUsable, StrictlySorted, EntryWellFormed, OutputWellFormed, Identifier, TallyOf;
    hide CountsMatchEntries, DistinctKeys;
    var p, c := PlanOf(s), WithoutNoOps(s).content;
    CountsBehind(s);
    TallyNumbers(c.counts, p.resources, ResourceKind);
    TallyNumbers(c.outputCounts, p.outputs, OutputKind);
  }

  /** The validation accepts a summary that is not one of any plan exactly if its counts
      do not match its entries: nothing in the code compares them. */
  lemma ValidIsFaithfulIff(s: Summary)
    requires ValidSummary(s)
    ensures (exists p: Plan, digest: string -> string :: Summarizes(p, WithoutNoOps(s), digest)) <==> CountsMatchEntries(s.content)
    ensures s.content.counts.noOp >= 0 && s.content.outputCounts.noOp >= 0
  {
    hide Faithful, Summarizable;
    if p: Plan, digest: string -> string :| Summarizes(p, WithoutNoOps(s), digest) {
      FaithfulCountsMatch(p, WithoutNoOps(s), digest);
    }
    if CountsMatchEntries(s.content) { PlanBehind(s); }
  }

  /** One created resource by its counts, and one destroyed resource by its only entry. */
  function Overlooked(): Summary {
    var c := Content(Tally(1, 0, 0, 0, 0, 0), Tally(0, 0, 0, 0, 0, 0), true, 1, [ResourceAction("a", "a", Delete, ZeroDigest())], 0, [],
                     ChangeClass);
    Summary(c, DigestOf(c))
  }

  /** The case is real: this summary is accepted, and no plan that can be summarized has it. */
  lemma DestructionIsOverlooked(p: Plan, digest: string -> string)
    ensures ValidSummary(Overlooked())
    ensures !Summarizes(p, WithoutNoOps(Overlooked()), digest) && !Summarizes(p, Overlooked(), digest)
  {
    hide Summarizable, Faithful, ValidSummary;
    OverlookedIsValid();
    var es := Overlooked().content.resourceActions;
    assert Count(es, EntryKind, Create) == 0 by { assert es[..0] == []; }
    assert !CountsMatchEntries(Overlooked().content);
    if Summarizes(p, Overlooked(), digest) { FaithfulCountsMatch(p, Overlooked(), digest); }
    if Summarizes(p, WithoutNoOps(Overlooked()), digest) { FaithfulCountsMatch(p, WithoutNoOps(Overlooked()), digest); }
  }

  lemma OverlookedIsValid()
    ensures ValidSummary(Overlooked())
  {
    hide IsDigest;
  }
}
