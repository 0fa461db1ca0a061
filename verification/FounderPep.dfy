/** The one-shot founder exception: its time windows, its ledger, and the claim and
    finalize steps that lead from one ledger value to the next. */
module FounderPep {
  import opened Digests
  import opened Outcomes

  const MINUTE := 60 * SECOND
  const HOUR := 60 * MINUTE
  const PLAN_QUARANTINE := 12 * HOUR
  const MIN_PLAN_WINDOW := 5 * MINUTE
  const MAX_PLAN_WINDOW := 30 * MINUTE
  const MIN_APPLY_WINDOW := 5 * MINUTE
  const MAX_APPLY_WINDOW := 15 * MINUTE
  const MIN_PLAN_APPLY_GAP := 5 * MINUTE
  const DENY_RETENTION := 12 * HOUR

  datatype State = Prepared | PlanAttempted | PlanReviewed | ApplyAttempted | Succeeded | Revoked | Failed | Uncertain

  datatype Intent = Intent(
    exceptionId: string, planPrincipal: string, applyPrincipal: string,
    revokedAt: int, planStart: int, planEnd: int, applyStart: int, applyEnd: int, retainUntil: int, createdAt: int)

  /** A change set, by the name and the identifier in its resource name. */
  datatype ChangeSet = ChangeSet(name: string, id: string)

  datatype Revocation = Revocation(exceptionId: string, intent: Digest<Intent>, executionVersion: int, executionUpdatedAt: int, startedAt: Option<int>)

  datatype Ledger = Ledger(
    exceptionId: string, intent: Digest<Intent>, version: int, state: State, planCount: int, applyCount: int,
    changeSet: Option<ChangeSet>, planRecord: Option<string>, exception: Option<string>,
    startedAt: Option<int>, outcome: Option<State>, revocation: Option<Digest<Revocation>>,
    createdAt: int, updatedAt: int)

  datatype Error =
    | InvalidIntent | InvalidLedger | NotBound | WrongPrincipal | OutsideWindow | AlreadyConsumed
    | WrongState | WrongChangeSet | InvalidDigest | TimeMovedBack | InvalidOutcome | RevocationMismatch

  predicate DigestPresent(s: Option<string>) {
    s.Some? && IsDigest(s.value)
  }

  predicate ChangeSetOf(c: ChangeSet, exceptionId: string) {
    c.name == "scanalyze-founder-bootstrap-" + exceptionId
  }

  predicate ValidIntent(i: Intent) {
    && i.planPrincipal != i.applyPrincipal
    && i.revokedAt + PLAN_QUARANTINE <= i.planStart
    && MIN_PLAN_WINDOW <= i.planEnd - i.planStart <= MAX_PLAN_WINDOW
    && MIN_PLAN_APPLY_GAP <= i.applyStart - i.planEnd
    && MIN_APPLY_WINDOW <= i.applyEnd - i.applyStart <= MAX_APPLY_WINDOW
    && i.applyEnd + DENY_RETENTION <= i.retainUntil
    && i.createdAt <= i.planStart
  }

  function ExpectedVersion(l: Ledger): int {
    match l.state
    case Prepared => 1
    case PlanAttempted => 2
    case PlanReviewed => 3
    case ApplyAttempted => 4
    case Succeeded => 5
    case Revoked => 6
    case _ => if l.applyCount == 0 then 3 else 5
  }

  predicate CountsFit(l: Ledger) {
    match l.state
    case Prepared => l.planCount == 0 && l.applyCount == 0
    case PlanAttempted => l.planCount == 1 && l.applyCount == 0
    case PlanReviewed => l.planCount == 1 && l.applyCount == 0
    case ApplyAttempted => l.planCount == 1 && l.applyCount == 1
    case Succeeded => l.planCount == 1 && l.applyCount == 1
    case Revoked => l.planCount == 1 && l.applyCount == 1
    case _ => l.planCount == 1 && (l.applyCount == 0 || l.applyCount == 1)
  }

  /** What every reader and every step of the ledger checks. */
  predicate ValidLedger(l: Ledger) {
    && CountsFit(l) && l.version == ExpectedVersion(l)
    && (l.state in {PlanReviewed, ApplyAttempted, Succeeded, Revoked} || (l.state in {Failed, Uncertain} && l.applyCount == 1) ==>
          l.changeSet.Some? && ChangeSetOf(l.changeSet.value, l.exceptionId) && DigestPresent(l.planRecord) && DigestPresent(l.exception))
    && (l.state in {Prepared, PlanAttempted} ==> l.changeSet.None? && l.planRecord.None? && l.exception.None?)
    && (l.applyCount == 1 <==> l.startedAt.Some?)
    && (l.state in {Succeeded, Failed, Uncertain} ==> l.outcome == Some(l.state))
    && (l.state == Revoked ==> l.outcome == Some(Succeeded) && l.revocation.Some?)
    && (l.state in {Prepared, PlanAttempted, PlanReviewed, ApplyAttempted} ==> l.outcome.None?)
    && (l.state != Revoked ==> l.revocation.None?)
    && l.createdAt <= l.updatedAt
  }

  predicate Authorized(i: Intent, l: Ledger) {
    ValidIntent(i) && ValidLedger(l) && l.exceptionId == i.exceptionId && l.intent == DigestOf(i)
  }

  function AuthorizeError(i: Intent, l: Ledger): Error {
    if !ValidIntent(i) then InvalidIntent else if !ValidLedger(l) then InvalidLedger else NotBound
  }

  // ---------------------------------------------------------------- operations

  function BuildLedger(i: Intent, createdAt: int): Result<Ledger, Error> {
    if !ValidIntent(i) then Err(InvalidIntent)
    else if ToSecond(createdAt) > i.planStart then Err(OutsideWindow)
    else
      var l := Ledger(i.exceptionId, DigestOf(i), 1, Prepared, 0, 0, None, None, None, None, None, None,
                      ToSecond(createdAt), ToSecond(createdAt));
      if ValidLedger(l) then Ok(l) else Err(InvalidLedger)
  }

  /** The common end of every step: time may not move back, the version grows by one, and
      the successor is validated before anybody can store it. `update` holds the changed fields. */
  function NextLedger(l: Ledger, now: int, update: Ledger): Result<Ledger, Error> {
    if ToSecond(now) < l.updatedAt then Err(TimeMovedBack)
    else
      var n := update.(version := l.version + 1, updatedAt := ToSecond(now));
      if ValidLedger(n) then Ok(n) else Err(InvalidLedger)
  }

  function ClaimPlan(i: Intent, l: Ledger, caller: string, now: int): Result<Ledger, Error> {
    if !Authorized(i, l) then Err(AuthorizeError(i, l))
    else if caller != i.planPrincipal then Err(WrongPrincipal)
    else if !(i.planStart <= ToSecond(now) < i.planEnd) then Err(OutsideWindow)
    else if l.planCount != 0 then Err(AlreadyConsumed)
    else if l.state != Prepared then Err(WrongState)
    else NextLedger(l, ToSecond(now), l.(state := PlanAttempted, planCount := 1))
  }

  function FinalizePlan(i: Intent, l: Ledger, c: ChangeSet, record: string, exception: string, now: int): Result<Ledger, Error> {
    if !Authorized(i, l) then Err(AuthorizeError(i, l))
    else if l.state != PlanAttempted || l.planCount != 1 then Err(WrongState)
    else if ToSecond(now) >= i.planEnd then Err(OutsideWindow)
    else if !ChangeSetOf(c, i.exceptionId) then Err(WrongChangeSet)
    else if !IsDigest(record) || !IsDigest(exception) then Err(InvalidDigest)
    else NextLedger(l, ToSecond(now),
                    l.(state := PlanReviewed, changeSet := Some(c), planRecord := Some(record), exception := Some(exception)))
  }

  function ClaimApply(i: Intent, l: Ledger, caller: string, c: ChangeSet, now: int): Result<Ledger, Error> {
    if !Authorized(i, l) then Err(AuthorizeError(i, l))
    else if caller != i.applyPrincipal then Err(WrongPrincipal)
    else if !(i.applyStart <= ToSecond(now) < i.applyEnd) then Err(OutsideWindow)
    else if l.applyCount != 0 then Err(AlreadyConsumed)
    else if l.state != PlanReviewed || l.planCount != 1 then Err(WrongState)
    else if !ChangeSetOf(c, i.exceptionId) || l.changeSet != Some(c) then Err(WrongChangeSet)
    else NextLedger(l, ToSecond(now), l.(state := ApplyAttempted, applyCount := 1, startedAt := Some(ToSecond(now))))
  }

  function FinalizeOutcome(i: Intent, l: Ledger, outcome: State, now: int): Result<Ledger, Error> {
    if !Authorized(i, l) then Err(AuthorizeError(i, l))
    else if outcome !in {Succeeded, Failed, Uncertain} then Err(InvalidOutcome)
    else if l.state !in {PlanAttempted, ApplyAttempted} then Err(WrongState)
    else if outcome == Succeeded && l.state != ApplyAttempted then Err(WrongState)
    else NextLedger(l, now, l.(state := outcome, outcome := Some(outcome)))
  }

  function RevocationFor(l: Ledger): Revocation {
    Revocation(l.exceptionId, l.intent, l.version, l.updatedAt, l.startedAt)
  }

  function FinalizeRevocation(i: Intent, l: Ledger, r: Revocation, now: int): Result<Ledger, Error> {
    if !Authorized(i, l) then Err(AuthorizeError(i, l))
    else if l.state != Succeeded || r != RevocationFor(l) then Err(RevocationMismatch)
    else NextLedger(l, now, l.(state := Revoked, revocation := Some(DigestOf(r))))
  }

  datatype Action =
    | PlanClaim(caller: string, at: int)
    | PlanReview(changeSet: ChangeSet, record: string, exception: string, at: int)
    | ApplyClaim(caller: string, changeSet: ChangeSet, at: int)
    | Conclude(outcome: State, at: int)
    | Revoke(revocation: Revocation, at: int)

  function Perform(i: Intent, l: Ledger, a: Action): Result<Ledger, Error> {
    match a
    case PlanClaim(caller, at) => ClaimPlan(i, l, caller, at)
    case PlanReview(c, record, exception, at) => FinalizePlan(i, l, c, record, exception, at)
    case ApplyClaim(caller, c, at) => ClaimApply(i, l, caller, c, at)
    case Conclude(outcome, at) => FinalizeOutcome(i, l, outcome, at)
    case Revoke(r, at) => FinalizeRevocation(i, l, r, at)
  }

  // ---------------------------------------------------------------- exactly when a step succeeds

  /** A claim or finalize step succeeds exactly when its own guards hold: from a valid
      ledger the successor always meets the state, counter and version table, so the
      final validation never refuses it. */
  lemma StepsAreComplete(i: Intent, l: Ledger, a: Action)
    ensures Perform(i, l, a).Ok? <==>
      && ValidIntent(i) && ValidLedger(l) && l.exceptionId == i.exceptionId && l.intent == DigestOf(i)
      && l.updatedAt <= ToSecond(a.at)
      && (match a
          case PlanClaim(caller, at) => l.state == Prepared && caller == i.planPrincipal && i.planStart <= ToSecond(at) < i.planEnd
          case PlanReview(c, record, exception, at) =>
            && l.state == PlanAttempted && ToSecond(at) < i.planEnd
            && ChangeSetOf(c, i.exceptionId) && IsDigest(record) && IsDigest(exception)
          case ApplyClaim(caller, c, at) =>
            && l.state == PlanReviewed && caller == i.applyPrincipal && l.changeSet == Some(c)
            && i.applyStart <= ToSecond(at) < i.applyEnd
          case Conclude(outcome, at) =>
            || (l.state == PlanAttempted && outcome in {Failed, Uncertain})
            || (l.state == ApplyAttempted && outcome in {Succeeded, Failed, Uncertain})
          case Revoke(r, at) => l.state == Succeeded && r == RevocationFor(l))
    ensures Perform(i, l, a).Ok? ==> Authorized(i, Perform(i, l, a).value)
  {
    hide IsDigest;
    assert ToSecond(ToSecond(a.at)) == ToSecond(a.at);
  }

  /** The first ledger of an exception is built exactly for a valid intent, at the latest
      when the Plan window opens, and says that nothing has happened yet. */
  lemma FirstLedgerIsExact(i: Intent, createdAt: int)
    ensures BuildLedger(i, createdAt).Ok? <==> ValidIntent(i) && ToSecond(createdAt) <= i.planStart
    ensures BuildLedger(i, createdAt).Ok? ==>
      var l := BuildLedger(i, createdAt).value;
      && l.exceptionId == i.exceptionId && l.intent == DigestOf(i) && l.version == 1 && l.state == Prepared
      && l.planCount == l.applyCount == 0 && l.createdAt == l.updatedAt == ToSecond(createdAt)
      && l.changeSet.None? && l.planRecord.None? && l.exception.None? && l.startedAt.None? && l.outcome.None? && l.revocation.None?
  {
    hide ValidIntent;
  }

  // ---------------------------------------------------------------- whole runs

  /** h lists every durable ledger of the exception, from the one that was created. */
  ghost predicate History(i: Intent, h: seq<Ledger>, a: seq<Action>) {
    && |h| == |a| + 1
    && (exists at: int :: BuildLedger(i, at) == Ok(h[0]))
    && forall k :: 0 <= k < |a| ==> Perform(i, h[k], a[k]) == Ok(h[k + 1])
  }

  /** The window facts a ledger carries with it. */
  predicate Timed(i: Intent, l: Ledger) {
    && (l.state == PlanAttempted ==> i.planStart <= l.updatedAt < i.planEnd)
    && (l.state == PlanReviewed ==> l.updatedAt < i.planEnd)
    && (l.startedAt.Some? ==> i.applyStart <= l.startedAt.value < i.applyEnd && l.startedAt.value <= l.updatedAt)
  }

  lemma StepKeeps(i: Intent, l: Ledger, a: Action, n: Ledger)
    requires Authorized(i, l) && Timed(i, l) && Perform(i, l, a) == Ok(n)
    ensures Authorized(i, n) && Timed(i, n) && n.version == l.version + 1 && n.updatedAt >= l.updatedAt
    ensures n.createdAt == l.createdAt && n.state != Prepared
    ensures l.startedAt.Some? ==> n.startedAt == l.startedAt
  {
    hide IsDigest;
  }

  lemma {:induction false} RunKeeps(i: Intent, h: seq<Ledger>, a: seq<Action>, k: nat)
    requires History(i, h, a) && k < |h|
    ensures Authorized(i, h[k]) && Timed(i, h[k]) && h[k].version == k + 1
    ensures forall m :: 0 <= m <= k ==> h[m].updatedAt <= h[k].updatedAt
    ensures k < 6 && (h[k].state == Prepared <==> k == 0)
    decreases k
  {
    if k > 0 {
      RunKeeps(i, h, a, k - 1);
      assert Perform(i, h[k - 1], a[k - 1]) == Ok(h[k]);
      hide Perform;
      StepKeeps(i, h[k - 1], a[k - 1], h[k]);
    }
  }

  /** Each claim happens at most once in a run, and no ledger value occurs twice. */
  lemma ClaimsOnce(i: Intent, h: seq<Ledger>, a: seq<Action>, k: nat, m: nat)
    requires History(i, h, a) && k < |h| && m < |h|
    ensures h[k].state == PlanAttempted && h[m].state == PlanAttempted ==> k == m == 1
    ensures h[k].state == ApplyAttempted && h[m].state == ApplyAttempted ==> k == m == 3
    ensures h[k] == h[m] ==> k == m
  {
    RunKeeps(i, h, a, k);
    RunKeeps(i, h, a, m);
  }

  /** The timeline of any run: the Plan claim comes at least twelve hours after the
      normal Plan role was revoked; a reviewed Plan precedes the start of Apply by more
      than five minutes; the denial outlasts the start of Apply by more than twelve hours. */
  lemma Timeline(i: Intent, h: seq<Ledger>, a: seq<Action>, j: nat, k: nat)
    requires History(i, h, a) && j < |h| && k < |h|
    ensures h[j].state == PlanAttempted ==> h[j].updatedAt >= i.revokedAt + PLAN_QUARANTINE
    ensures h[j].state == PlanReviewed && h[k].startedAt.Some? ==>
              h[k].startedAt.value - h[j].updatedAt > MIN_PLAN_APPLY_GAP
    ensures h[k].startedAt.Some? ==> h[k].startedAt.value + DENY_RETENTION < i.retainUntil
    ensures h[k].state == PlanAttempted ==> h[k].updatedAt + MIN_PLAN_APPLY_GAP < i.applyStart
  {
    RunKeeps(i, h, a, j);
    RunKeeps(i, h, a, k);
  }

  /** A step to a claimed Apply is the claim, or leaves what was claimed. */
  lemma ApplyStep(i: Intent, l: Ledger, a: Action, n: Ledger)
    requires Authorized(i, l) && Perform(i, l, a) == Ok(n) && n.applyCount == 1
    ensures n.changeSet == l.changeSet && n.planRecord == l.planRecord && n.exception == l.exception
    ensures l.applyCount == 1 ==> n.startedAt == l.startedAt
    ensures l.applyCount != 1 ==> l.state == PlanReviewed && n.state == ApplyAttempted
  {
    hide IsDigest, ChangeSetOf, ValidIntent;
  }

  lemma ReviewStep(i: Intent, l: Ledger, a: Action, n: Ledger)
    requires Authorized(i, l) && Perform(i, l, a) == Ok(n) && n.state == PlanReviewed
    ensures l.state == PlanAttempted
  {
    hide IsDigest, ChangeSetOf, ValidIntent;
  }

  /** A run that claimed Apply went through the review: its second ledger claimed the
      Plan, its third reviewed it, and the change set that is applied is the reviewed one. */
  lemma {:induction false} ApplyFollowsReview(i: Intent, h: seq<Ledger>, a: seq<Action>, k: nat)
    requires History(i, h, a) && k < |h| && h[k].applyCount == 1
    ensures |h| > 3 && h[1].state == PlanAttempted && h[2].state == PlanReviewed && h[3].state == ApplyAttempted
    ensures h[k].changeSet == h[2].changeSet && h[k].planRecord == h[2].planRecord && h[k].exception == h[2].exception
    ensures h[k].startedAt == h[3].startedAt
    decreases k
  {
    hide IsDigest, ChangeSetOf, ValidIntent, Perform, Timed;
    RunKeeps(i, h, a, k);
    if k > 0 {
      RunKeeps(i, h, a, k - 1);
      assert Perform(i, h[k - 1], a[k - 1]) == Ok(h[k]);
      ApplyStep(i, h[k - 1], a[k - 1], h[k]);
      if h[k - 1].applyCount == 1 {
        ApplyFollowsReview(i, h, a, k - 1);
      } else {
        RunKeeps(i, h, a, 1);
        assert Perform(i, h[1], a[1]) == Ok(h[2]);
        ReviewStep(i, h[1], a[1], h[2]);
      }
    }
  }

  /** What one step writes, field by field. */
  lemma StepWrites(i: Intent, l: Ledger, a: Action, n: Ledger)
    requires Authorized(i, l) && Perform(i, l, a) == Ok(n)
    ensures n.exceptionId == l.exceptionId && n.intent == l.intent && n.createdAt == l.createdAt && n.updatedAt == ToSecond(a.at)
    ensures a.PlanReview? ==>
      n.state == PlanReviewed && n.changeSet == Some(a.changeSet) && n.planRecord == Some(a.record) && n.exception == Some(a.exception)
    ensures !a.PlanReview? ==> n.changeSet == l.changeSet && n.planRecord == l.planRecord && n.exception == l.exception
    ensures a.ApplyClaim? ==> n.state == ApplyAttempted && l.changeSet == Some(a.changeSet) && n.startedAt == Some(ToSecond(a.at))
    ensures !a.ApplyClaim? ==> n.startedAt == l.startedAt
    ensures a.PlanClaim? ==> n.state == PlanAttempted
    ensures a.Conclude? ==> n.state == a.outcome && n.outcome == Some(a.outcome)
    ensures !a.Conclude? ==> n.outcome == l.outcome
    ensures a.Revoke? ==> n.state == Revoked && n.revocation == Some(DigestOf(a.revocation))
  {
    hide IsDigest, ChangeSetOf, ValidIntent;
    assert ToSecond(ToSecond(a.at)) == ToSecond(a.at);
  }

  /** Which step leads to which state. */
  lemma StepLeadsTo(i: Intent, l: Ledger, a: Action, n: Ledger)
    requires Authorized(i, l) && Perform(i, l, a) == Ok(n)
    ensures n.state == PlanAttempted <==> a.PlanClaim?
    ensures n.state == PlanReviewed <==> a.PlanReview?
    ensures n.state == ApplyAttempted <==> a.ApplyClaim?
    ensures n.state in {Succeeded, State.Failed, Uncertain} <==> a.Conclude?
    ensures n.state == Revoked <==> a.Revoke?
    ensures a.PlanClaim? ==> a.caller == i.planPrincipal && l.state == Prepared
    ensures a.PlanReview? ==> l.state == PlanAttempted
    ensures a.ApplyClaim? ==> a.caller == i.applyPrincipal && l.state == PlanReviewed
    ensures a.Revoke? ==> l.state == Succeeded && a.revocation.executionUpdatedAt == l.updatedAt && a.revocation.startedAt == l.startedAt
                          && a.revocation.executionVersion == l.version && a.revocation.exceptionId == l.exceptionId && a.revocation.intent == l.intent
  {
    hide IsDigest, ChangeSetOf, ValidIntent;
  }

  /** The ledger tells the run. What it holds of the review is what the review was given,
      its start is when Apply was claimed, by the Apply principal, and its revocation names
      the version, the end and the start of the execution that succeeded. */
  lemma {:induction false} LedgerTellsTheRun(i: Intent, h: seq<Ledger>, a: seq<Action>, k: nat)
    requires History(i, h, a) && k < |h|
    ensures h[k].exceptionId == i.exceptionId && h[k].createdAt == h[0].updatedAt && (k > 0 ==> h[k].updatedAt == ToSecond(a[k - 1].at))
    ensures k >= 1 ==> a[0].PlanClaim? && a[0].caller == i.planPrincipal
    ensures if k >= 2 && a[1].PlanReview?
            then h[k].changeSet == Some(a[1].changeSet) && h[k].planRecord == Some(a[1].record) && h[k].exception == Some(a[1].exception)
            else h[k].changeSet == None && h[k].planRecord == None && h[k].exception == None
    ensures if k >= 3
            then a[1].PlanReview? && a[2] == ApplyClaim(i.applyPrincipal, a[1].changeSet, a[2].at) && h[k].startedAt == Some(ToSecond(a[2].at))
            else h[k].startedAt == None
    ensures k >= 4 ==> a[3].Conclude? && h[4].state == a[3].outcome && h[k].outcome == Some(a[3].outcome)
    ensures k == 5 ==>
      a[4].Revoke? && h[4].state == Succeeded && h[5].revocation == Some(DigestOf(Revocation(i.exceptionId, DigestOf(i), 5, h[4].updatedAt, h[3].startedAt)))
    decreases k
  {
    hide IsDigest, ChangeSetOf, ValidIntent, Perform, Timed;
    RunKeeps(i, h, a, k);
    if k > 0 {
      LedgerTellsTheRun(i, h, a, k - 1);
      if k == 5 { LedgerTellsTheRun(i, h, a, 3); }
      RunKeeps(i, h, a, k - 1);
      assert Perform(i, h[k - 1], a[k - 1]) == Ok(h[k]);
      StepWrites(i, h[k - 1], a[k - 1], h[k]);
      StepLeadsTo(i, h[k - 1], a[k - 1], h[k]);
    }
  }

  /** Nobody both plans and applies, and both act within windows of bounded length: the
      review comes less than half an hour after the Plan claim, the Apply claim less than a
      quarter of an hour into its window, and no ledger belongs to two intents. */
  lemma TwoPrincipals(i: Intent, h: seq<Ledger>, a: seq<Action>)
    requires History(i, h, a)
    ensures |h| > 3 ==> a[0].PlanClaim? && a[2].ApplyClaim? && a[0].caller != a[2].caller
    ensures |h| > 2 && h[2].state == PlanReviewed ==> h[2].updatedAt - h[1].updatedAt < MAX_PLAN_WINDOW
    ensures |h| > 3 ==> 0 <= h[3].updatedAt - i.applyStart < MAX_APPLY_WINDOW
    ensures forall j: Intent, k :: 0 <= k < |h| && Authorized(j, h[k]) ==> j == i
  {
    if |h| > 1 { LedgerTellsTheRun(i, h, a, |h| - 1); }
    RunKeeps(i, h, a, 0);
    if |h| > 1 { RunKeeps(i, h, a, 1); }
    if |h| > 2 { RunKeeps(i, h, a, 2); }
    if |h| > 3 {
      RunKeeps(i, h, a, 3);
      ApplyFollowsReview(i, h, a, 3);
      LedgerTellsTheRun(i, h, a, 3);
    }
    forall j: Intent, k | 0 <= k < |h| && Authorized(j, h[k]) ensures j == i {
      RunKeeps(i, h, a, k);
    }
  }

  // ---------------------------------------------------------------- what the validator accepts

  datatype Review = Review(changeSet: ChangeSet, record: string, exception: string)

  /** How far an exception has come, and what it has met on the way. */
  datatype Stage =
    | Fresh
    | Planning
    | PlanLost(outcome: State, changeSet: Option<ChangeSet>, record: Option<string>, exception: Option<string>)
    | Reviewing(review: Review)
    | Applying(review: Review, startedAt: int)
    | Ended(review: Review, startedAt: int, outcome: State)
    | Withdrawn(review: Review, startedAt: int, revocation: Digest<Revocation>)

  predicate UsableReview(r: Review, exceptionId: string) {
    ChangeSetOf(r.changeSet, exceptionId) && IsDigest(r.record) && IsDigest(r.exception)
  }

  predicate UsableStage(s: Stage, exceptionId: string) {
    match s
    case Fresh => true
    case Planning => true
    case PlanLost(outcome, _, _, _) => outcome in {State.Failed, Uncertain}
    case Reviewing(r) => UsableReview(r, exceptionId)
    case Applying(r, _) => UsableReview(r, exceptionId)
    case Ended(r, _, outcome) => UsableReview(r, exceptionId) && outcome in {Succeeded, State.Failed, Uncertain}
    case Withdrawn(r, _, _) => UsableReview(r, exceptionId)
  }

  /** The ledger of a stage. */
  function LedgerAt(s: Stage, exceptionId: string, intent: Digest<Intent>, createdAt: int, updatedAt: int): Ledger {
    var first := Ledger(exceptionId, intent, 1, Prepared, 0, 0, None, None, None, None, None, None, createdAt, updatedAt);
    var planned := first.(planCount := 1);
    match s
    case Fresh => first
    case Planning => planned.(version := 2, state := PlanAttempted)
    case PlanLost(outcome, changeSet, record, exception) =>
      planned.(version := 3, state := outcome, outcome := Some(outcome), changeSet := changeSet, planRecord := record, exception := exception)
    case Reviewing(r) => WithReview(planned, r).(version := 3, state := PlanReviewed)
    case Applying(r, at) => WithReview(planned, r).(version := 4, state := ApplyAttempted, applyCount := 1, startedAt := Some(at))
    case Ended(r, at, outcome) =>
      WithReview(planned, r).(version := 5, state := outcome, outcome := Some(outcome), applyCount := 1, startedAt := Some(at))
    case Withdrawn(r, at, revocation) =>
      WithReview(planned, r).(version := 6, state := Revoked, outcome := Some(Succeeded), applyCount := 1, startedAt := Some(at),
                              revocation := Some(revocation))
  }

  function WithReview(l: Ledger, r: Review): Ledger {
    l.(changeSet := Some(r.changeSet), planRecord := Some(r.record), exception := Some(r.exception))
  }

  /** What the validator of stored ledgers accepts is exactly the ledgers of the stages: no
      other combination of state, counters, version and data passes. A lost Plan was never
      reviewed, but the validator does not look at its review fields. */
  lemma ValidLedgersAreStages(l: Ledger)
    ensures ValidLedger(l) <==>
      l.createdAt <= l.updatedAt
      && exists s: Stage :: UsableStage(s, l.exceptionId) && l == LedgerAt(s, l.exceptionId, l.intent, l.createdAt, l.updatedAt)
  {
    hide ChangeSetOf, IsDigest;
    if ValidLedger(l) {
      var s := StageOf(l);
      assert UsableStage(s, l.exceptionId) && l == LedgerAt(s, l.exceptionId, l.intent, l.createdAt, l.updatedAt);
    }
  }

  ghost function StageOf(l: Ledger): Stage
    requires ValidLedger(l)
  {
    if l.state == Prepared then Fresh
    else if l.state == PlanAttempted then Planning
    else if l.state in {State.Failed, Uncertain} && l.applyCount == 0 then PlanLost(l.state, l.changeSet, l.planRecord, l.exception)
    else
      var r := Review(l.changeSet.value, l.planRecord.value, l.exception.value);
      if l.state == PlanReviewed then Reviewing(r)
      else if l.state == ApplyAttempted then Applying(r, l.startedAt.value)
      else if l.state == Revoked then Withdrawn(r, l.startedAt.value, l.revocation.value)
      else Ended(r, l.startedAt.value, l.state)
  }

  /** So it accepts ledgers that no run writes: a lost Plan with a review. */
  lemma LostPlanMayClaimReview(i: Intent, c: ChangeSet, at: int) returns (l: Ledger)
    requires ValidIntent(i)
    ensures Authorized(i, l) && l.state == Uncertain && l.applyCount == 0 && l.changeSet == Some(c)
    ensures forall h, a, k :: History(i, h, a) && 0 <= k < |h| ==> h[k] != l
  {
    hide IsDigest, ChangeSetOf;
    l := LedgerAt(PlanLost(Uncertain, Some(c), None, None), i.exceptionId, DigestOf(i), at, at);
    forall h, a, k | History(i, h, a) && 0 <= k < |h| ensures h[k] != l {
      if h[k] == l {
        RunKeeps(i, h, a, k);
        LedgerTellsTheRun(i, h, a, k);
        assert false;
      }
    }
  }

  // ---------------------------------------------------------------- every intent can be used

  /** Every valid intent can be carried through to its revocation, from a ledger created when
      the intent was, at any second of the first five minutes of either window. */
  lemma EveryIntentCanBeUsed(i: Intent, c: ChangeSet, record: string, exception: string, plan: int, apply: int)
    returns (h: seq<Ledger>, a: seq<Action>)
    requires ValidIntent(i) && ChangeSetOf(c, i.exceptionId) && IsDigest(record) && IsDigest(exception)
    requires i.planStart <= ToSecond(plan) < i.planStart + MIN_PLAN_WINDOW && i.applyStart <= ToSecond(apply) < i.applyStart + MIN_APPLY_WINDOW
    ensures History(i, h, a) && |h| == 6 && h[5].state == Revoked && h[4].state == Succeeded
    ensures BuildLedger(i, i.createdAt) == Ok(h[0])
  {
    hide ChangeSetOf, IsDigest, Perform, ValidIntent, Authorized;
    WindowsAreApart(i, plan, apply);
    FirstLedger(i);
    h, a := [BuildLedger(i, i.createdAt).value], [];
    h, a := TakeStep(i, h, a, PlanClaim(i.planPrincipal, plan));
    h, a := TakeStep(i, h, a, PlanReview(c, record, exception, plan));
    h, a := TakeStep(i, h, a, ApplyClaim(i.applyPrincipal, c, apply));
    h, a := TakeStep(i, h, a, Conclude(Succeeded, apply));
    h, a := TakeStep(i, h, a, Revoke(RevocationFor(h[4]), apply));
  }

  lemma WindowsAreApart(i: Intent, plan: int, apply: int)
    requires ValidIntent(i)
    requires i.planStart <= ToSecond(plan) < i.planStart + MIN_PLAN_WINDOW && i.applyStart <= ToSecond(apply) < i.applyStart + MIN_APPLY_WINDOW
    ensures i.createdAt <= i.planStart && ToSecond(plan) < i.planEnd && ToSecond(plan) <= ToSecond(apply) < i.applyEnd
  {
  }

  lemma FirstLedger(i: Intent)
    requires ValidIntent(i)
    ensures BuildLedger(i, i.createdAt).Ok?
    ensures var l := BuildLedger(i, i.createdAt).value;
            Authorized(i, l) && l.state == Prepared && l.updatedAt == ToSecond(i.createdAt) <= i.createdAt
  {
  }

  /** Takes a step whose guards hold. */
  lemma TakeStep(i: Intent, h: seq<Ledger>, a: seq<Action>, action: Action) returns (h': seq<Ledger>, a': seq<Action>)
    requires History(i, h, a) && Authorized(i, h[|a|]) && h[|a|].updatedAt <= ToSecond(action.at)
    requires var l := h[|a|];
             match action
             case PlanClaim(caller, at) => l.state == Prepared && caller == i.planPrincipal && i.planStart <= ToSecond(at) < i.planEnd
             case PlanReview(c, record, exception, at) =>
               l.state == PlanAttempted && ToSecond(at) < i.planEnd && ChangeSetOf(c, i.exceptionId) && IsDigest(record) && IsDigest(exception)
             case ApplyClaim(caller, c, at) =>
               l.state == PlanReviewed && caller == i.applyPrincipal && l.changeSet == Some(c) && i.applyStart <= ToSecond(at) < i.applyEnd
             case Conclude(outcome, at) => l.state == ApplyAttempted && outcome == Succeeded
             case Revoke(r, at) => l.state == Succeeded && r == RevocationFor(l)
    ensures |h'| == |h| + 1 && h'[..|h|] == h && |a'| == |a| + 1 && History(i, h', a') && Authorized(i, h'[|a'|])
    ensures h'[|a'|].updatedAt == ToSecond(action.at)
    ensures h'[|a'|].state == match action
                              case PlanClaim(_, _) => PlanAttempted
                              case PlanReview(_, _, _, _) => PlanReviewed
                              case ApplyClaim(_, _, _) => ApplyAttempted
                              case Conclude(_, _) => Succeeded
                              case Revoke(_, _) => Revoked
    ensures h'[|a'|].changeSet == if action.PlanReview? then Some(action.changeSet) else h[|a|].changeSet
  {
    hide ChangeSetOf, IsDigest, Perform, ValidIntent, ValidLedger, History;
    LastOfHistory(i, h, a);
    StepsAreComplete(i, h[|a|], action);
    h', a' := OneMoreStep(i, h, a, action);
    StepWrites(i, h[|a|], action, h'[|a'|]);
  }

  lemma LastOfHistory(i: Intent, h: seq<Ledger>, a: seq<Action>)
    requires History(i, h, a)
    ensures |h| == |a| + 1
  {
  }

  lemma OneMoreStep(i: Intent, h: seq<Ledger>, a: seq<Action>, action: Action) returns (h': seq<Ledger>, a': seq<Action>)
    requires History(i, h, a) && Perform(i, h[|a|], action).Ok?
    ensures h' == h + [Perform(i, h[|a|], action).value] && a' == a + [action] && History(i, h', a')
  {
    hide Perform, BuildLedger;
    h', a' := h + [Perform(i, h[|a|], action).value], a + [action];
    assert h'[0] == h[0];
    forall k | 0 <= k < |a'| ensures Perform(i, h'[k], a'[k]) == Ok(h'[k + 1]) {
      if k < |a| { assert Perform(i, h[k], a[k]) == Ok(h[k + 1]); }
    }
  }
}
