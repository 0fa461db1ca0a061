/** The deployment registry: which record may follow which, and what that means for every
    history. */
module DeploymentRegistry {
  import opened Outcomes

  datatype Stage = Requested | Baselining | Ready | Active | Suspended | Offboarding | Archived

  /** The account baseline a deployment stands on. */
  datatype AccountReady = AccountReady(baseline: string, contract: string)

  /** Where the Terraform state of a deployment is kept. */
  datatype StateBinding = StateBinding(bucket: string, key: string)

  datatype Body = Body(
    schema: int, customer: string, deployment: string, account: string, region: string, environment: string,
    accountReady: AccountReady, stateBinding: StateBinding, origin: Option<string>, status: Stage, version: int)

  datatype Record = Record(body: Body, digest: Digest<Body>)

  /** The condition of a conditional write. */
  datatype Condition =
    | NotExists
    | Matches(version: int, digest: Digest<Body>, schema: Option<int>, customer: string, account: string, region: string)

  datatype RecordError = InvalidRecord | VersionConflict | DigestConflict | VersionStep | ImmutableField | StatusStep

  /** The record is well formed and carries its own digest. Only records of schema 2 have
      a runtime origin. */
  predicate ValidRecord(r: Record) {
    && r.digest == DigestOf(r.body) && r.body.schema in {1, 2} && r.body.version >= 1
    && (r.body.origin.Some? <==> r.body.schema == 2)
  }

  function Successors(s: Stage): set<Stage> {
    match s
    case Requested => {Baselining}
    case Baselining => {Ready}
    case Ready => {Active, Suspended, Offboarding}
    case Active => {Suspended, Offboarding}
    case Suspended => {Active, Offboarding}
    case Offboarding => {Archived}
    case Archived => {}
  }

  /** The fields no update may change, besides the schema. */
  predicate SameIdentity(a: Body, b: Body) {
    && a.customer == b.customer && a.deployment == b.deployment && a.account == b.account && a.region == b.region
    && a.environment == b.environment && a.accountReady == b.accountReady && a.stateBinding == b.stateBinding
  }

  function PrepareCreate(r: Record): Result<Condition, RecordError> {
    if !ValidRecord(r) then Err(InvalidRecord)
    else if r.body.version != 1 then Err(VersionStep)
    else Ok(NotExists)
  }

  function PrepareUpdate(current: Record, proposed: Record, version: int, digest: Digest<Body>): Result<Condition, RecordError> {
    var a, b := current.body, proposed.body;
    if !ValidRecord(current) || !ValidRecord(proposed) then Err(InvalidRecord)
    else if a.version != version then Err(VersionConflict)
    else if current.digest != digest then Err(DigestConflict)
    else if b.version != a.version + 1 then Err(VersionStep)
    else if a.schema == 1 && b.schema == 2 then
      if !SameIdentity(a, b) then Err(ImmutableField)
      else if b.status != a.status then Err(StatusStep)
      else Ok(Matches(version, digest, Some(1), a.customer, a.account, a.region))
    else if !SameIdentity(a, b) || a.schema != b.schema || (a.schema == 2 && a.origin != b.origin) then Err(ImmutableField)
    else if b.status !in Successors(a.status) then Err(StatusStep)
    else Ok(Matches(version, digest, None, a.customer, a.account, a.region))
  }

  /** How the table evaluates a condition against what it stores. */
  predicate Holds(c: Condition, stored: Option<Record>) {
    match c
    case NotExists => stored == None
    case Matches(version, digest, schema, customer, account, region) =>
      && stored.Some? && stored.value.body.version == version && stored.value.digest == digest
      && (schema.Some? ==> stored.value.body.schema == schema.value) && stored.value.body.customer == customer
      && stored.value.body.account == account && stored.value.body.region == region
  }

  /** The condition compares a handful of attributes, but it holds of a valid stored record
      exactly if that record is the one the update was prepared from. */
  lemma ConditionIsExact(current: Record, proposed: Record, version: int, digest: Digest<Body>, stored: Option<Record>)
    requires PrepareUpdate(current, proposed, version, digest).Ok?
    requires stored.Some? ==> ValidRecord(stored.value)
    ensures Holds(PrepareUpdate(current, proposed, version, digest).value, stored) <==> stored == Some(current)
  {
    hide SameIdentity, Successors;
  }

  /** Two kinds of record can follow a valid one: the same at a next stage of its lifecycle,
      or the same migrated to schema 2 with some runtime origin. */
  lemma FollowersAreExact(a: Record, b: Record)
    requires ValidRecord(a)
    ensures Follows(a, b) <==>
      && b.digest == DigestOf(b.body)
      && (|| (b.body.status in Successors(a.body.status) && b.body == a.body.(status := b.body.status, version := a.body.version + 1))
          || (a.body.schema == 1 && b.body.origin.Some?
              && b.body == a.body.(schema := 2, origin := b.body.origin, version := a.body.version + 1)))
  {
    hide Successors;
  }

  // ---------------------------------------------------------------- histories

  predicate Follows(a: Record, b: Record) {
    PrepareUpdate(a, b, a.body.version, a.digest).Ok?
  }

  predicate FollowsAt(h: seq<Record>, i: nat)
    requires 0 < i < |h|
  {
    Follows(h[i - 1], h[i])
  }

  /** A history of committed writes: a creation and then updates. */
  predicate History(h: seq<Record>) {
    && (h != [] ==> PrepareCreate(h[0]).Ok?)
    && forall i: nat | 0 < i < |h| :: FollowsAt(h, i)
  }

  lemma OneMore(h: seq<Record>, r: Record)
    requires History(h) && if h == [] then PrepareCreate(r).Ok? else Follows(h[|h| - 1], r)
    ensures History(h + [r])
  {
    var g := h + [r];
    forall i: nat | 0 < i < |g| ensures FollowsAt(g, i) {
      assert i < |h| ==> FollowsAt(h, i);
    }
  }

  lemma {:induction false} VersionCountsWrites(h: seq<Record>, i: nat)
    requires History(h) && i < |h|
    ensures h[i].body.version == i + 1 && ValidRecord(h[i])
  {
    if i > 0 {
      VersionCountsWrites(h, i - 1);
      assert FollowsAt(h, i);
    }
  }

  function Rank(s: Stage): nat {
    match s
    case Requested => 0
    case Baselining => 1
    case Ready => 2
    case Active => 3
    case Suspended => 3
    case Offboarding => 4
    case Archived => 5
  }

  /** What later records keep of earlier ones. */
  predicate Keeps(a: Body, b: Body) {
    && SameIdentity(a, b) && a.schema <= b.schema && (a.schema == 2 ==> b.origin == a.origin)
    && Rank(a.status) <= Rank(b.status)
  }

  lemma StepKeeps(a: Record, b: Record)
    requires Follows(a, b)
    ensures Keeps(a.body, b.body) && ValidRecord(b) && b.body.version == a.body.version + 1
  {
  }

  lemma SelfKept(a: Body)
    ensures Keeps(a, a)
  {
  }

  lemma KeepsOn(a: Body, b: Body, c: Body)
    requires Keeps(a, b) && Keeps(b, c) && a.schema in {1, 2} && b.schema in {1, 2}
    ensures Keeps(a, c)
  {
  }

  lemma NothingIsLost(h: seq<Record>, i: nat, j: nat)
    requires History(h) && i <= j < |h|
    ensures var a, b := h[i].body, h[j].body;
            && (a.customer, a.deployment, a.account, a.region, a.environment) == (b.customer, b.deployment, b.account, b.region, b.environment)
            && a.accountReady == b.accountReady && a.stateBinding == b.stateBinding
            && a.schema <= b.schema && (a.schema == 2 ==> a.origin == b.origin)
            && Rank(a.status) <= Rank(b.status)
  {
    AllKept(h, i, j);
  }

  lemma {:induction false} AllKept(h: seq<Record>, i: nat, j: nat)
    requires History(h) && i <= j < |h|
    ensures Keeps(h[i].body, h[j].body)
  {
    hide Follows, Keeps, PrepareCreate;
    VersionCountsWrites(h, i);
    VersionCountsWrites(h, j);
    if i < j {
      AllKept(h, i, j - 1);
      assert FollowsAt(h, j);
      StepKeeps(h[j - 1], h[j]);
      VersionCountsWrites(h, j - 1);
      KeepsOn(h[i].body, h[j - 1].body, h[j].body);
    } else {
      SelfKept(h[i].body);
    }
  }

  /** The schema changes at most once, and that step leaves the status alone. */
  lemma MigratesOnce(h: seq<Record>, i: nat, j: nat)
    requires History(h) && 0 < i <= j < |h|
    requires h[i - 1].body.schema != h[i].body.schema && h[j - 1].body.schema != h[j].body.schema
    ensures i == j && h[i - 1].body.schema == 1 && h[i].body.schema == 2 && h[i - 1].body.status == h[i].body.status
  {
    assert FollowsAt(h, i) && FollowsAt(h, j);
    VersionCountsWrites(h, i - 1);
    VersionCountsWrites(h, i);
    VersionCountsWrites(h, j);
    if i < j {
      NothingIsLost(h, i, j - 1);
    }
  }

  /** ARCHIVED is never left, and the only write that can still follow is the migration to
      schema 2. */
  lemma ArchivedIsFinal(h: seq<Record>, i: nat, j: nat)
    requires History(h) && i < j < |h| && h[i].body.status == Archived
    ensures h[j].body.status == Archived && j == i + 1 == |h| - 1 && h[i].body.schema == 1 && h[j].body.schema == 2
  {
    assert FollowsAt(h, i + 1);
    if i + 2 < |h| {
      assert FollowsAt(h, i + 2);
      TwoAfterArchived(h[i], h[i + 1], h[i + 2]);
    }
  }

  lemma TwoAfterArchived(a: Record, b: Record, c: Record)
    requires a.body.status == Archived
    ensures !(Follows(a, b) && Follows(b, c))
  {
  }

  /** A prepared write is admitted exactly on top of the record it was prepared from, and
      then the history stays one. */
  lemma Admitted(h: seq<Record>, durable: Option<Record>, c: Condition, current: Option<Record>, proposed: Record)
    requires History(h) && durable == (if h == [] then None else Some(h[|h| - 1]))
    requires match current
             case None => PrepareCreate(proposed) == Ok(c)
             case Some(r) => PrepareUpdate(r, proposed, r.body.version, r.digest) == Ok(c)
    ensures Holds(c, durable) <==> durable == current
    ensures durable == current ==> History(h + [proposed]) && proposed.body.version == |h| + 1
  {
    if h != [] {
      VersionCountsWrites(h, |h| - 1);
    }
    if current.Some? {
      ConditionIsExact(current.value, proposed, current.value.body.version, current.value.digest, durable);
    }
    if durable == current {
      OneMore(h, proposed);
    }
    hide SameIdentity, Successors;
  }

  // ---------------------------------------------------------------- the lifecycle can be gone through

  /** The records of one deployment along these stages. */
  function Along(body: Body, stages: seq<Stage>): (h: seq<Record>)
    ensures |h| == |stages|
  {
    seq(|stages|, i requires 0 <= i < |stages| =>
      var b := body.(status := stages[i], version := i + 1); Record(b, DigestOf(b)))
  }

  predicate Starts(body: Body) {
    body.schema in {1, 2} && (body.origin.Some? <==> body.schema == 2)
  }

  /** A deployment of either schema can be published on every way from REQUESTED to
      ARCHIVED: through ACTIVE, suspended and taken up again, or offboarded from READY,
      from ACTIVE or from SUSPENDED. */
  lemma LifecycleCanBePublished(body: Body)
    requires Starts(body)
    ensures History(Along(body, [Requested, Baselining, Ready, Active, Suspended, Active, Offboarding, Archived]))
    ensures History(Along(body, [Requested, Baselining, Ready, Suspended, Offboarding, Archived]))
    ensures History(Along(body, [Requested, Baselining, Ready, Offboarding, Archived]))
  {
    var through := [Requested, Baselining, Ready, Active, Suspended, Active, Offboarding, Archived];
    var suspended, given := [Requested, Baselining, Ready, Suspended, Offboarding, Archived], [Requested, Baselining, Ready, Offboarding, Archived];
    AlongIsHistory(body, through);
    AlongIsHistory(body, suspended);
    AlongIsHistory(body, given);
  }

  lemma AlongIsHistory(body: Body, stages: seq<Stage>)
    requires Starts(body) && forall i :: 0 < i < |stages| ==> stages[i] in Successors(stages[i - 1])
    ensures History(Along(body, stages))
  {
    hide Successors;
    var h := Along(body, stages);
    forall i: nat | 0 < i < |h| ensures FollowsAt(h, i) {
      assert stages[i] in Successors(stages[i - 1]);
    }
  }

  /** A record of schema 1 can migrate in every stage, and nothing else about it changes. */
  lemma MigrationCanBePublished(r: Record, origin: string)
    requires ValidRecord(r) && r.body.schema == 1
    ensures var b := r.body.(schema := 2, origin := Some(origin), version := r.body.version + 1);
            Follows(r, Record(b, DigestOf(b)))
  {
  }

  /** No other step of the lifecycle can be published: a stage is followed by the next one,
      SUSPENDED leads back to ACTIVE, and only from READY on a deployment is suspended or
      offboarded. */
  lemma OnlyLifecycleSteps(a: Record, b: Record)
    requires Follows(a, b) && a.body.schema == b.body.schema
    ensures (a.body.status, b.body.status) in {
      (Requested, Baselining), (Baselining, Ready), (Ready, Active), (Ready, Suspended), (Ready, Offboarding),
      (Active, Suspended), (Active, Offboarding), (Suspended, Active), (Suspended, Offboarding), (Offboarding, Archived)}
  {
  }
}
