/** The execution ledger of a saved Terraform plan: how one ledger value may follow
    another, and what every chain of such steps keeps. */
module LedgerEngine {
  import opened Outcomes

  datatype Status =
    | Planned | Approved | Rejected | Expired
    | Applying | Applied | Uncertain | Failed
    | Healthy | FailedHealth | ReconciledApplied | ReconciliationRequired

  /** Customer, deployment, account, region, environment, execution, change and layer. */
  datatype Binding = Binding(deployment: string, execution: string, layer: string, others: seq<string>)

  /** The digest of reviewer authority: domain-separated content, so injective. */
  datatype Authority = Authority(environment: string, reviewer: int, identity: string, configuration: string)

  datatype Classification = NoChange | Change

  /** A Terraform state read: absent, or present with an immutable fingerprint. */
  datatype StateRead = AbsentState | PresentState(lineage: string, serial: int, version: string, sha: string, size: int)

  /** The durable saved-plan record. */
  datatype PlanRecord = PlanRecord(
    binding: Binding, bindings: seq<string>, authority: Authority, anchor: string,
    createdAt: int, expiresAt: int, storage: string, planBinary: string,
    state: StateRead, classification: Classification)

  /** The approval of one workflow run. */
  datatype Approval = Approval(
    binding: Binding, plan: Digest<PlanRecord>, authority: Authority,
    environment: string, identity: string, configuration: string,
    runId: int, runAttempt: int, initiator: int, approver: int, expectedApprover: int,
    packet: Digest<PlanRecord>, windowStart: int, observedAt: int, expiresAt: int)

  datatype HealthReceipt = HealthReceipt(
    binding: Binding, passed: bool, plan: Digest<PlanRecord>,
    sourceLedger: LedgerDigest, sourceVersion: int,
    state: StateRead, contract: string, checkedAt: int)

  datatype ReconciliationReceipt = ReconciliationReceipt(
    binding: Binding, decision: Status, plan: Digest<PlanRecord>,
    sourceLedger: LedgerDigest, sourceVersion: int,
    state: StateRead, checkedAt: int)

  /** The digest of either kind of receipt: its content. */
  datatype ReceiptDigest =
    | DigestOfHealth(health: HealthReceipt)
    | DigestOfReconciliation(reconciliation: ReconciliationReceipt)

  datatype Publication = Publication(health: ReceiptDigest, contract: string, readback: string)

  datatype Code = ApplySucceeded | ApplyFailed | ResponseLost | RunnerLost

  datatype LedgerDigest = DigestOfLedger(content: Ledger)

  datatype Ledger = Ledger(
    binding: Binding, status: Status, version: int,
    plan: Digest<PlanRecord>, anchor: string, reviewer: int, authority: Authority,
    updatedAt: int, attempts: int,
    approval: Option<Digest<Approval>>,
    outcome: Option<Code>, evidence: Option<ReceiptDigest>, publication: Option<Digest<Publication>>)

  datatype Error =
    | InvalidLedger | VersionConflict | DigestConflict | ForbiddenTransition | EvidenceMissing
    | EvidenceMismatch | InvalidApproval | AttemptConsumed | NotUnused | SameApproval | NotStale

  /** The lease of a runner must be this old before it may be recovered. */
  const STALE_APPLYING_MIN_AGE := 3900 * SECOND

  // ---------------------------------------------------------------- building blocks

  function Successors(s: Status): set<Status> {
    match s
    case Planned => {Approved, Rejected, Expired}
    case Approved => {Applying, Expired}
    case Applying => {Applied, Uncertain, Failed}
    case Applied => {Healthy, FailedHealth}
    case Uncertain => {ReconciledApplied, ReconciliationRequired}
    case ReconciledApplied => {Healthy, FailedHealth}
    case _ => {}
  }

  /** What every reader of a stored ledger checks: publication evidence is exactly
      for HEALTHY ledgers. */
  predicate ValidDocument(l: Ledger) {
    if l.status == Healthy then l.publication.Some? && l.evidence.Some? else l.publication.None?
  }

  /** The checks made on an approval whenever it is used, at time now. */
  predicate ApprovalCurrent(a: Approval, now: int) {
    && a.runAttempt == 1
    && a.initiator != a.approver
    && a.approver == a.expectedApprover
    && a.authority == Authority(a.environment, a.expectedApprover, a.identity, a.configuration)
    && a.windowStart <= a.observedAt < a.expiresAt
    && a.observedAt - a.windowStart <= 900 * SECOND
    && a.expiresAt - a.observedAt <= 300 * SECOND
    && a.expiresAt - a.windowStart <= 900 * SECOND
    && a.observedAt <= now < a.expiresAt
  }

  predicate ApprovalFits(l: Ledger, a: Approval, now: int) {
    && ApprovalCurrent(a, now)
    && a.binding == l.binding
    && a.plan == l.plan
    && a.authority == l.authority
    && a.expectedApprover == l.reviewer
  }

  predicate HealthFits(l: Ledger, h: HealthReceipt) {
    && h.binding == l.binding && h.passed && h.plan == l.plan
    && h.sourceLedger == DigestOfLedger(l) && h.sourceVersion == l.version
  }

  predicate PublicationFits(h: HealthReceipt, p: Publication) {
    p.health == DigestOfHealth(h) && p.contract == h.contract && p.readback == h.contract
  }

  predicate ReconciliationFits(l: Ledger, r: ReconciliationReceipt, next: Status) {
    && r.binding == l.binding && r.decision == next && r.plan == l.plan
    && r.sourceLedger == DigestOfLedger(l) && r.sourceVersion == l.version
  }

  // ---------------------------------------------------------------- operations

  /** The create-only first ledger of a plan. */
  function InitialLedger(plan: PlanRecord, at: int): Ledger {
    Ledger(plan.binding, Planned, 1, DigestOf(plan), plan.anchor, plan.authority.reviewer, plan.authority,
           ToSecond(at), 0, None, None, None, None)
  }

  /** The optional arguments of a transition. */
  datatype Support = Support(
    code: Option<Code>, approval: Option<Approval>, health: Option<HealthReceipt>,
    publication: Option<Publication>, reconciliation: Option<ReconciliationReceipt>)

  const NO_SUPPORT := Support(None, None, None, None, None)

  function SupportError(l: Ledger, next: Status, at: int, s: Support): Option<Error> {
    match next
    case Approved =>
      if s.approval.None? then Some(EvidenceMissing)
      else if !ApprovalFits(l, s.approval.value, at) then Some(InvalidApproval) else None
    case Healthy =>
      if s.health.None? then Some(EvidenceMissing)
      else if !HealthFits(l, s.health.value) then Some(EvidenceMismatch)
      else if s.publication.None? then Some(EvidenceMissing)
      else if !PublicationFits(s.health.value, s.publication.value) then Some(EvidenceMismatch) else None
    case ReconciledApplied =>
      if s.reconciliation.None? then Some(EvidenceMissing)
      else if !ReconciliationFits(l, s.reconciliation.value, next) then Some(EvidenceMismatch) else None
    case ReconciliationRequired =>
      if s.reconciliation.None? then Some(EvidenceMissing)
      else if !ReconciliationFits(l, s.reconciliation.value, next) then Some(EvidenceMismatch) else None
    case _ => None
  }

  function EvidenceFor(next: Status, s: Support): Option<ReceiptDigest> {
    match next
    case Healthy => if s.health.Some? then Some(DigestOfHealth(s.health.value)) else None
    case ReconciledApplied =>
      if s.reconciliation.Some? then Some(DigestOfReconciliation(s.reconciliation.value)) else None
    case ReconciliationRequired =>
      if s.reconciliation.Some? then Some(DigestOfReconciliation(s.reconciliation.value)) else None
    case _ => None
  }

  /** One compare-and-swap transition, prepared against the ledger that was read. */
  function PrepareTransition(l: Ledger, next: Status, version: int, digest: LedgerDigest, at: int, s: Support)
    : (r: Result<Ledger, Error>)
  {
    if !ValidDocument(l) then Err(InvalidLedger)
    else if l.version != version then Err(VersionConflict)
    else if DigestOfLedger(l) != digest then Err(DigestConflict)
    else if next !in Successors(l.status) then Err(ForbiddenTransition)
    else
      var problem := SupportError(l, next, at, s);
      if problem.Some? then Err(problem.value)
      else if next == Applying && l.attempts != 0 then Err(AttemptConsumed)
      else
        var proposed := l.(
          status := next, version := l.version + 1, updatedAt := ToSecond(at),
          attempts := if next == Applying then 1 else l.attempts,
          approval := if next == Approved && s.approval.Some? then Some(DigestOf(s.approval.value)) else l.approval,
          outcome := s.code,
          evidence := EvidenceFor(next, s),
          publication := if next == Healthy && s.publication.Some? then Some(DigestOf(s.publication.value)) else l.publication);
        if ValidDocument(proposed) then Ok(proposed) else Err(InvalidLedger)
  }

  /** Select fresh approval evidence while the plan is still unused. */
  function PrepareReapproval(l: Ledger, a: Approval, version: int, digest: LedgerDigest, at: int)
    : (r: Result<Ledger, Error>)
  {
    if !ValidDocument(l) then Err(InvalidLedger)
    else if l.version != version then Err(VersionConflict)
    else if DigestOfLedger(l) != digest then Err(DigestConflict)
    else if l.status != Approved || l.attempts != 0 then Err(NotUnused)
    else if !ApprovalFits(l, a, at) then Err(InvalidApproval)
    else if l.approval == Some(DigestOf(a)) then Err(SameApproval)
    else Ok(l.(version := l.version + 1, updatedAt := ToSecond(at), approval := Some(DigestOf(a))))
  }

  /** Move an expired runner lease to UNCERTAIN. */
  function RecoverStale(l: Ledger, now: int): (r: Result<Ledger, Error>) {
    if l.status != Applying || l.attempts != 1 || now - l.updatedAt < STALE_APPLYING_MIN_AGE then Err(NotStale)
    else PrepareTransition(l, Uncertain, l.version, DigestOfLedger(l), now, NO_SUPPORT.(code := Some(RunnerLost)))
  }

  /** A transition succeeds exactly along the lifecycle and with the evidence that its
      target asks for, and an attempt is consumed only once. */
  lemma TransitionIsExact(l: Ledger, next: Status, version: int, digest: LedgerDigest, at: int, s: Support)
    ensures PrepareTransition(l, next, version, digest, at, s).Ok? <==>
      && ValidDocument(l) && version == l.version && digest == DigestOfLedger(l)
      && (l.status, next) in {
           (Planned, Approved), (Planned, Rejected), (Planned, Expired), (Approved, Applying), (Approved, Expired),
           (Applying, Applied), (Applying, Uncertain), (Applying, Failed), (Applied, Healthy), (Applied, FailedHealth),
           (Uncertain, ReconciledApplied), (Uncertain, ReconciliationRequired), (ReconciledApplied, Healthy), (ReconciledApplied, FailedHealth)}
      && (next == Approved ==> s.approval.Some? && ApprovalFits(l, s.approval.value, at))
      && (next == Applying ==> l.attempts == 0)
      && (next == Healthy ==>
            && s.health.Some? && s.health.value.passed && s.health.value.sourceLedger == DigestOfLedger(l)
            && s.health.value.sourceVersion == l.version && s.health.value.plan == l.plan && s.health.value.binding == l.binding
            && s.publication == Some(Publication(DigestOfHealth(s.health.value), s.health.value.contract, s.health.value.contract)))
      && (next in {ReconciledApplied, ReconciliationRequired} ==>
            && s.reconciliation.Some? && s.reconciliation.value.decision == next && s.reconciliation.value.sourceLedger == DigestOfLedger(l)
            && s.reconciliation.value.sourceVersion == l.version && s.reconciliation.value.plan == l.plan
            && s.reconciliation.value.binding == l.binding)
  {
    SuccessorsListed(l.status, next);
    hide ApprovalFits, Successors;
  }

  lemma SuccessorsListed(s: Status, next: Status)
    ensures next in Successors(s) <==> (s, next) in {
      (Planned, Approved), (Planned, Rejected), (Planned, Expired), (Approved, Applying), (Approved, Expired),
      (Applying, Applied), (Applying, Uncertain), (Applying, Failed), (Applied, Healthy), (Applied, FailedHealth),
      (Uncertain, ReconciledApplied), (Uncertain, ReconciliationRequired), (ReconciledApplied, Healthy), (ReconciledApplied, FailedHealth)}
  {
  }

  /** An approval is replaced exactly while the attempt is unused, by a different one that
      fits, and nothing else but version and time changes. */
  lemma ReapprovalIsExact(l: Ledger, a: Approval, version: int, digest: LedgerDigest, at: int)
    ensures var r := PrepareReapproval(l, a, version, digest, at);
            && (r.Ok? <==>
                  && ValidDocument(l) && version == l.version && digest == DigestOfLedger(l)
                  && l.status == Approved && l.attempts == 0 && l.approval != Some(DigestOf(a)) && ApprovalFits(l, a, at))
            && (r.Ok? ==> r.value == l.(approval := Some(DigestOf(a)), version := l.version + 1, updatedAt := ToSecond(at)))
  {
    hide ApprovalFits;
  }

  /** And then it writes these fields and leaves the others. */
  lemma TransitionWrites(l: Ledger, next: Status, at: int, s: Support, n: Ledger)
    requires PrepareTransition(l, next, l.version, DigestOfLedger(l), at, s) == Ok(n)
    ensures n.status == next && n.version == l.version + 1 && n.updatedAt == ToSecond(at) && n.outcome == s.code
    ensures n.attempts == (if next == Applying then 1 else l.attempts)
    ensures next == Approved ==> n.approval == Some(DigestOf(s.approval.value))
    ensures next != Approved ==> n.approval == l.approval
    ensures next == Healthy ==>
      n.evidence == Some(DigestOfHealth(s.health.value)) && n.publication == Some(DigestOf(s.publication.value))
    ensures next in {ReconciledApplied, ReconciliationRequired} ==> n.evidence == Some(DigestOfReconciliation(s.reconciliation.value))
    ensures next !in {Healthy, ReconciledApplied, ReconciliationRequired} ==> n.evidence == None
    ensures next != Healthy ==> n.publication == l.publication
    ensures n.binding == l.binding && n.plan == l.plan && n.anchor == l.anchor && n.reviewer == l.reviewer && n.authority == l.authority
  {
    hide ApprovalFits;
  }

  /** A lease is recovered exactly if it is the one attempt, still running and at least 65
      minutes old; then the ledger is UNCERTAIN, says that the runner was lost, and keeps
      everything else. */
  lemma RecoveryIsExact(l: Ledger, now: int)
    requires ValidDocument(l)
    ensures RecoverStale(l, now).Ok? <==> l.status == Applying && l.attempts == 1 && now >= l.updatedAt + 65 * 60 * SECOND
    ensures RecoverStale(l, now).Ok? ==>
              RecoverStale(l, now).value == l.(status := Uncertain, version := l.version + 1, updatedAt := ToSecond(now),
                                               outcome := Some(RunnerLost), evidence := None)
  {
  }

  // ---------------------------------------------------------------- chains of steps

  datatype Action =
    | Move(next: Status, at: int, support: Support)
    | Reapprove(approval: Approval, at: int)
    | Recover(at: int)

  function Perform(l: Ledger, a: Action): Result<Ledger, Error> {
    match a
    case Move(next, at, s) => PrepareTransition(l, next, l.version, DigestOfLedger(l), at, s)
    case Reapprove(ap, at) => PrepareReapproval(l, ap, l.version, DigestOfLedger(l), at)
    case Recover(at) => RecoverStale(l, at)
  }

  /** h lists every ledger value that was ever durable; a[i] led from h[i] to h[i + 1]. */
  ghost predicate Chain(h: seq<Ledger>, a: seq<Action>) {
    && |h| == |a| + 1
    && forall i :: 0 <= i < |a| ==> Perform(h[i], a[i]) == Ok(h[i + 1])
  }

  ghost predicate Starts(l: Ledger) {
    exists plan: PlanRecord, at: int :: l == InitialLedger(plan, at)
  }

  /** A chain that began with a create-only ledger. */
  ghost predicate History(h: seq<Ledger>, a: seq<Action>) {
    Chain(h, a) && Starts(h[0])
  }

  predicate Unconsumed(s: Status) {
    s in {Planned, Approved, Rejected, Expired}
  }

  /** How many transitions other than reapproval a status is away from PLANNED, at most. */
  function Depth(s: Status): nat {
    match s
    case Planned => 0
    case Approved => 1
    case Rejected => 1
    case Expired => 2
    case Applying => 2
    case Applied => 3
    case Uncertain => 3
    case Failed => 3
    case ReconciledApplied => 4
    case ReconciliationRequired => 4
    case Healthy => 5
    case FailedHealth => 5
  }

  function Transitions(a: seq<Action>): nat {
    if a == [] then 0 else Transitions(a[..|a| - 1]) + if a[|a| - 1].Reapprove? then 0 else 1
  }

  /** What holds of the ledger reached after n steps. */
  predicate Sound(l: Ledger, steps: nat) {
    && l.version == steps + 1
    && l.attempts == (if Unconsumed(l.status) then 0 else 1)
    && (l.status == Planned || l.status == Rejected ==> l.approval.None?)
    && (l.status == Approved || !Unconsumed(l.status) ==> l.approval.Some?)
    && (l.publication.Some? <==> l.status == Healthy)
    && (l.status in {Healthy, ReconciledApplied, ReconciliationRequired} ==> l.evidence.Some?)
  }

  /** One step keeps the invariant and everything the step may not touch. */
  lemma StepKeeps(l: Ledger, a: Action, n: Ledger, steps: nat)
    requires Sound(l, steps) && Perform(l, a) == Ok(n)
    ensures Sound(n, steps + 1)
    ensures n.binding == l.binding && n.plan == l.plan && n.anchor == l.anchor
    ensures n.reviewer == l.reviewer && n.authority == l.authority
    ensures l.attempts == 1 ==> n.attempts == 1 && n.approval == l.approval
    ensures a.Reapprove? ==> l.status == n.status == Approved && l.approval != n.approval
    ensures !a.Reapprove? ==> n.status in Successors(l.status)
  {
  }

  /** The whole-run invariant: the version counts the steps, the attempt counter says
      exactly whether APPLYING was ever reached, publication evidence exists exactly
      when HEALTHY, and at most Depth(status) steps were not reapprovals. */
  lemma {:induction false} RunInvariant(h: seq<Ledger>, a: seq<Action>)
    requires History(h, a)
    ensures Sound(h[|a|], |a|)
    ensures h[|a|].binding == h[0].binding && h[|a|].plan == h[0].plan
    ensures h[|a|].reviewer == h[0].reviewer && h[|a|].authority == h[0].authority
    ensures Transitions(a) <= Depth(h[|a|].status) <= 5
  {
    if |a| > 0 {
      var n := |a| - 1;
      RunInvariant(h[..|a|], a[..n]);
      assert Perform(h[n], a[n]) == Ok(h[|a|]);
      hide Perform;
      StepKeeps(h[n], a[n], h[|a|], n);
    }
  }

  lemma PrefixInvariant(h: seq<Ledger>, a: seq<Action>, i: nat)
    requires History(h, a) && i < |h|
    ensures Sound(h[i], i)
    ensures h[i].binding == h[0].binding && h[i].plan == h[0].plan
    ensures h[i].reviewer == h[0].reviewer && h[i].authority == h[0].authority
  {
    RunInvariant(h[..i + 1], a[..i]);
  }

  /** Once the attempt is consumed it stays consumed, under one frozen approval, and
      the ledger never again is PLANNED, APPROVED or APPLYING. */
  lemma {:induction false} ConsumedForever(h: seq<Ledger>, a: seq<Action>, i: nat, j: nat)
    requires History(h, a) && i <= j < |h| && h[i].attempts == 1
    ensures h[j].attempts == 1 && h[j].approval == h[i].approval && !Unconsumed(h[j].status)
    ensures i < j ==> h[j].status != Applying
    decreases j
  {
    PrefixInvariant(h, a, j);
    if i < j {
      assert Perform(h[j - 1], a[j - 1]) == Ok(h[j]);
      hide Perform;
      ConsumedForever(h, a, i, j - 1);
      PrefixInvariant(h, a, j - 1);
      StepKeeps(h[j - 1], a[j - 1], h[j], j - 1);
    }
  }

  /** A history holds at most one APPLYING ledger, and no ledger value twice. */
  lemma OneAttempt(h: seq<Ledger>, a: seq<Action>, i: nat, j: nat)
    requires History(h, a) && i < |h| && j < |h|
    ensures h[i].status == Applying && h[j].status == Applying ==> i == j
    ensures h[i] == h[j] ==> i == j
  {
    PrefixInvariant(h, a, i);
    PrefixInvariant(h, a, j);
    if h[i].status == Applying && h[j].status == Applying {
      if i < j { ConsumedForever(h, a, i, j); }
      if j < i { ConsumedForever(h, a, j, i); }
    }
  }

  /** After APPLIED only HEALTHY or FAILED_HEALTH can follow; UNCERTAIN never does, and
      APPLIED never follows UNCERTAIN. */
  lemma {:induction false} AppliedIsKept(h: seq<Ledger>, a: seq<Action>, i: nat, j: nat)
    requires History(h, a) && i <= j < |h| && h[i].status in {Applied, Healthy, FailedHealth}
    ensures h[j].status in {Applied, Healthy, FailedHealth}
    decreases j
  {
    hide Perform, ValidDocument;
    if i < j {
      AppliedIsKept(h, a, i, j - 1);
      PrefixInvariant(h, a, j - 1);
      StepKeeps(h[j - 1], a[j - 1], h[j], j - 1);
    }
  }

  /** The two outcomes of an attempt exclude each other over the whole history. */
  lemma OutcomesExclude(h: seq<Ledger>, a: seq<Action>, i: nat, j: nat)
    requires History(h, a) && i < |h| && j < |h|
    requires h[i].status == Applied
    ensures h[j].status != Uncertain && h[j].status != ReconciledApplied && h[j].status != Failed
  {
    if i <= j {
      AppliedIsKept(h, a, i, j);
    } else if h[j].status in {Uncertain, ReconciledApplied, Failed} {
      NoWayBack(h, a, j, i);
    }
  }

  lemma {:induction false} NoWayBack(h: seq<Ledger>, a: seq<Action>, j: nat, i: nat)
    requires History(h, a) && j <= i < |h| && h[j].status in {Uncertain, ReconciledApplied, Failed}
    ensures h[i].status != Applied && h[i].attempts == 1
    ensures h[i].status in {Uncertain, ReconciledApplied, ReconciliationRequired, Failed, Healthy, FailedHealth}
    decreases i
  {
    PrefixInvariant(h, a, j);
    if j < i {
      NoWayBack(h, a, j, i - 1);
      PrefixInvariant(h, a, i - 1);
      StepKeeps(h[i - 1], a[i - 1], h[i], i - 1);
    }
  }

  /** Whoever initiated the run, somebody else approved: every ledger that carries an
      approval got it in some step, at a time when that approval was current, for this plan
      and from the reviewer of this plan, who did not initiate the run. The evidence was
      observed at most 15 minutes into its window and expired at most 5 minutes later. */
  lemma {:induction false} ApprovalWasGiven(h: seq<Ledger>, a: seq<Action>, k: nat) returns (m: nat, approval: Approval, at: int)
    requires History(h, a) && k < |h| && h[k].approval.Some?
    ensures 0 < m <= k && h[m].status == Approved && h[m].approval == h[k].approval == Some(DigestOf(approval)) && h[m].updatedAt == ToSecond(at)
    ensures approval.plan == h[0].plan && approval.binding == h[0].binding && approval.authority == h[0].authority
    ensures approval.approver == h[0].reviewer && approval.approver != approval.initiator && approval.runAttempt == 1
    ensures approval.authority == Authority(approval.environment, approval.approver, approval.identity, approval.configuration)
    ensures approval.windowStart <= approval.observedAt <= at < approval.expiresAt
    ensures approval.observedAt <= approval.windowStart + 15 * 60 * SECOND && approval.expiresAt <= approval.observedAt + 5 * 60 * SECOND
    ensures approval.expiresAt <= approval.windowStart + 15 * 60 * SECOND
    decreases k
  {
    PrefixInvariant(h, a, k);
    assert k > 0;
    PrefixInvariant(h, a, k - 1);
    assert Perform(h[k - 1], a[k - 1]) == Ok(h[k]);
    hide Perform;
    if h[k].approval == h[k - 1].approval {
      m, approval, at := ApprovalWasGiven(h, a, k - 1);
    } else {
      GivesApproval(h[k - 1], a[k - 1], h[k]);
      m, at := k, a[k - 1].at;
      approval := if a[k - 1].Reapprove? then a[k - 1].approval else a[k - 1].support.approval.value;
    }
  }

  /** A step that changes the approval records one that fits the ledger at that time. */
  lemma GivesApproval(l: Ledger, a: Action, n: Ledger)
    requires Perform(l, a) == Ok(n) && n.approval != l.approval
    ensures n.status == Approved && n.updatedAt == ToSecond(a.at) && (a.Reapprove? || (a.Move? && a.support.approval.Some?))
    ensures var given := if a.Reapprove? then a.approval else a.support.approval.value;
            n.approval == Some(DigestOf(given)) && ApprovalFits(l, given, a.at)
  {
  }
}
