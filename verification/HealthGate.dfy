/** The read-only evidence after an apply: health receipts, reconciliation receipts, and
    the gate that a downstream stage puts before itself. */
module HealthGate {
  import opened Digests
  import opened Outcomes
  import opened LedgerEngine

  datatype GateError =
    | WrongStatus | BindingMismatch | BracketMissing | StateChanged | StateInvalid | LineageMismatch
    | NotAdvanced | SerialDrifted | SpeculationInvalid | ContractInvalid | ChecksInvalid
    | NotHealthy | LayerMismatch | ReceiptMissing | ReceiptMismatch | VersionMismatch | PublicationMissing | NotPassed

  datatype SpeculativeResult = PlanNoChange | PlanChange | PlanError

  /** A speculative plan: its claimed result and, unless it failed, its classification. */
  datatype Speculation = Speculation(result: SpeculativeResult, summary: Option<Classification>)

  predicate IsAlphaNumeric(c: char) {
    'A' <= c <= 'Z' || 'a' <= c <= 'z' || '0' <= c <= '9'
  }

  predicate ValidLineage(s: string) {
    && 8 <= |s| <= 128 && IsAlphaNumeric(s[0])
    && forall i :: 0 < i < |s| ==> IsAlphaNumeric(s[i]) || s[i] in "._:-"
  }

  /** A real present state with an immutable fingerprint. */
  predicate Fingerprint(s: StateRead) {
    && s.PresentState? && ValidLineage(s.lineage) && s.serial >= 0
    && s.version != "" && s.version != "null" && IsDigest(s.sha) && s.size >= 2
  }

  function Bracket(before: Option<StateRead>, after: Option<StateRead>): (r: Result<StateRead, GateError>)
    ensures r.Ok? ==> before == after == Some(r.value) && r.value.PresentState? && Fingerprint(r.value)
  {
    if before.None? || after.None? then Err(BracketMissing)
    else if !Fingerprint(before.value) || !Fingerprint(after.value) then Err(StateInvalid)
    else if before != after then Err(StateChanged)
    else Ok(before.value)
  }

  predicate SpeculationFits(s: Speculation) {
    match s.result
    case PlanError => s.summary.None?
    case PlanNoChange => s.summary == Some(NoChange)
    case PlanChange => s.summary == Some(Change)
  }

  /** The state test of the health receipt. */
  function StateError(plan: PlanRecord, state: StateRead): Option<GateError>
    requires state.PresentState?
  {
    if plan.state.AbsentState? then None
    else if state.lineage != plan.state.lineage then Some(LineageMismatch)
    else if plan.classification == Change && state.serial <= plan.state.serial then Some(NotAdvanced)
    else if plan.classification == NoChange && state.serial != plan.state.serial then Some(SerialDrifted)
    else None
  }

  /** The state test of a reconciliation. */
  predicate StateReconciles(plan: PlanRecord, state: StateRead)
    requires state.PresentState?
  {
    plan.state.AbsentState? || (state.lineage == plan.state.lineage && state.serial > plan.state.serial)
  }

  datatype Check = Check(name: string, passed: bool)

  predicate ChecksUsable(checks: seq<Check>) {
    checks != [] && forall i, j :: 0 <= i < j < |checks| ==> checks[i].name != checks[j].name
  }

  predicate AllPassed(checks: seq<Check>) {
    forall i :: 0 <= i < |checks| ==> checks[i].passed
  }

  function BuildHealthReceipt(
    plan: PlanRecord, l: Ledger, before: Option<StateRead>, after: Option<StateRead>, speculation: Option<Classification>,
    outputsDigest: string, outputCount: int, contract: string, checkedAt: int, checks: seq<Check>): Result<HealthReceipt, GateError>
  {
    if l.status != Applied && l.status != ReconciledApplied then Err(WrongStatus)
    else if l.binding != plan.binding || l.plan != DigestOf(plan) then Err(BindingMismatch)
    else
      var state := Bracket(before, after);
      if state.Err? then Err(state.error)
      else if StateError(plan, state.value).Some? then Err(StateError(plan, state.value).value)
      else if !SpeculationFits(Speculation(PlanNoChange, speculation)) then Err(SpeculationInvalid)
      else if !IsDigest(outputsDigest) || outputCount < 0 || outputCount > 128 || !IsDigest(contract) then Err(ContractInvalid)
      else if !ChecksUsable(checks) then Err(ChecksInvalid)
      else Ok(HealthReceipt(plan.binding, AllPassed(checks), DigestOf(plan), DigestOfLedger(l), l.version,
                            state.value, contract, ToSecond(checkedAt)))
  }

  function BuildReconciliationReceipt(
    plan: PlanRecord, l: Ledger, before: Option<StateRead>, after: Option<StateRead>, speculation: Speculation,
    contractVerified: bool, checkedAt: int): Result<ReconciliationReceipt, GateError>
  {
    if l.status != Uncertain then Err(WrongStatus)
    else if l.binding != plan.binding || l.plan != DigestOf(plan) then Err(BindingMismatch)
    else
      var state := Bracket(before, after);
      if state.Err? then Err(state.error)
      else if !SpeculationFits(speculation) then Err(SpeculationInvalid)
      else
        var reconciled := StateReconciles(plan, state.value) && speculation.result == PlanNoChange && contractVerified;
        Ok(ReconciliationReceipt(plan.binding, if reconciled then ReconciledApplied else ReconciliationRequired,
                                 DigestOf(plan), DigestOfLedger(l), l.version, state.value, ToSecond(checkedAt)))
  }

  /** The gate before a downstream stage; none means the predecessor is accepted. */
  function RequireDownstreamHealth(l: Ledger, plan: PlanRecord, layer: string, receipt: Option<HealthReceipt>): Option<GateError> {
    if l.status != Healthy then Some(NotHealthy)
    else if l.binding.layer != layer then Some(LayerMismatch)
    else if receipt.None? then Some(ReceiptMissing)
    else if l.plan != DigestOf(plan) then Some(BindingMismatch)
    else if l.evidence != Some(DigestOfHealth(receipt.value)) then Some(ReceiptMismatch)
    else if receipt.value.binding != l.binding || plan.binding != l.binding then Some(BindingMismatch)
    else if receipt.value.plan != DigestOf(plan) then Some(BindingMismatch)
    else if receipt.value.sourceVersion != l.version - 1 then Some(VersionMismatch)
    else if l.publication.None? then Some(PublicationMissing)
    else if !receipt.value.passed then Some(NotPassed)
    else None
  }

  // ---------------------------------------------------------------- what the builders decide

  /** A fingerprint is of a state with a lineage of 8 to 128 plain characters that begins
      with a letter or a digit, and of one stored version of it with its digest. */
  lemma FingerprintsAreExact(s: StateRead)
    ensures Fingerprint(s) <==>
      && s.PresentState? && 8 <= |s.lineage| <= 128 && s.lineage[0] !in "._:-"
      && (forall c :: c in s.lineage ==> c in "._:-" || 'a' <= c <= 'z' || 'A' <= c <= 'Z' || '0' <= c <= '9')
      && 0 <= s.serial && s.version !in {"", "null"} && IsDigest(s.sha) && 2 <= s.size
  {
    hide IsDigest;
    if s.PresentState? && 8 <= |s.lineage| <= 128 {
      assert s.lineage[0] in s.lineage;
      assert forall i :: 0 <= i < |s.lineage| ==> s.lineage[i] in s.lineage;
    }
  }

  /** A receipt is built exactly from two equal reads of a real state, for an execution of
      this plan that is UNCERTAIN, with a speculation that is what it claims to be. It
      decides for RECONCILED_APPLIED exactly if the state was absent or it advanced in the
      same lineage, the speculation saw no change, and the contract was verified; every
      other receipt decides for RECONCILIATION_REQUIRED. */
  lemma ReconciliationIsExact(
      plan: PlanRecord, l: Ledger, before: Option<StateRead>, after: Option<StateRead>, speculation: Speculation,
      contractVerified: bool, checkedAt: int)
    ensures var r := BuildReconciliationReceipt(plan, l, before, after, speculation, contractVerified, checkedAt);
      && (r.Ok? <==>
            && l.status == Uncertain && l.binding == plan.binding && l.plan == DigestOf(plan)
            && before.Some? && after == before && Fingerprint(before.value)
            && speculation in {Speculation(PlanNoChange, Some(NoChange)), Speculation(PlanChange, Some(Change)), Speculation(PlanError, None)})
      && (r.Ok? ==>
            && r.value.decision in {ReconciledApplied, ReconciliationRequired}
            && (r.value.decision == ReconciledApplied <==>
                  && (plan.state.AbsentState?
                      || (before.value.lineage == plan.state.lineage && before.value.serial > plan.state.serial))
                  && speculation.result == PlanNoChange && contractVerified)
            && r.value.binding == plan.binding && r.value.plan == DigestOf(plan) && r.value.state == before.value
            && r.value.sourceLedger == DigestOfLedger(l) && r.value.sourceVersion == l.version && r.value.checkedAt == ToSecond(checkedAt))
  {
    hide Fingerprint;
  }

  /** The same for health receipts: which executions, reads and evidence they are built
      from, and that a receipt passes exactly if every check did. */
  lemma HealthIsExact(
      plan: PlanRecord, l: Ledger, before: Option<StateRead>, after: Option<StateRead>, speculation: Option<Classification>,
      outputsDigest: string, outputCount: int, contract: string, checkedAt: int, checks: seq<Check>)
    ensures var r := BuildHealthReceipt(plan, l, before, after, speculation, outputsDigest, outputCount, contract, checkedAt, checks);
      && (r.Ok? <==>
            && l.status in {Applied, ReconciledApplied} && l.binding == plan.binding && l.plan == DigestOf(plan)
            && before.Some? && after == before && Fingerprint(before.value)
            && (plan.state.AbsentState?
                || (before.value.lineage == plan.state.lineage
                    && (plan.classification == Change ==> before.value.serial > plan.state.serial)
                    && (plan.classification == NoChange ==> before.value.serial == plan.state.serial)))
            && speculation == Some(NoChange) && IsDigest(outputsDigest) && 0 <= outputCount <= 128 && IsDigest(contract)
            && checks != [] && (forall i, j :: 0 <= i < |checks| && 0 <= j < |checks| && checks[i].name == checks[j].name ==> i == j))
      && (r.Ok? ==>
            && (r.value.passed <==> forall c :: c in checks ==> c.passed)
            && r.value.binding == plan.binding && r.value.plan == DigestOf(plan) && r.value.state == before.value
            && r.value.sourceLedger == DigestOfLedger(l) && r.value.sourceVersion == l.version
            && r.value.contract == contract && r.value.checkedAt == ToSecond(checkedAt))
  {
    hide Fingerprint, IsDigest;
    assert (forall i, j :: 0 <= i < |checks| && 0 <= j < |checks| && checks[i].name == checks[j].name ==> i == j)
      <==> forall i, j :: 0 <= i < j < |checks| ==> checks[i].name != checks[j].name;
  }

  // ---------------------------------------------------------------- the two sides agree

  /** The transition to HEALTHY accepts exactly the receipts that the downstream gate will
      accept afterwards: whatever receipt took the ledger to HEALTHY passes the gate, and
      no other receipt does. */
  lemma HealthyStepOpensTheGate(plan: PlanRecord, l: Ledger, at: int, s: Support, n: Ledger, receipt: HealthReceipt)
    requires l.binding == plan.binding && l.plan == DigestOf(plan)
    requires PrepareTransition(l, Healthy, l.version, DigestOfLedger(l), at, s) == Ok(n)
    ensures s.health.Some? && s.publication.Some?
    ensures RequireDownstreamHealth(n, plan, plan.binding.layer, Some(receipt)) == None <==> receipt == s.health.value
  {
  }

  /** In every history of a plan, a HEALTHY ledger is accepted downstream with exactly one receipt. */
  lemma EveryHealthyIsAccepted(plan: PlanRecord, at: int, h: seq<Ledger>, a: seq<Action>, k: nat) returns (receipt: HealthReceipt)
    requires History(h, a) && h[0] == InitialLedger(plan, at) && k < |h| && h[k].status == Healthy
    ensures RequireDownstreamHealth(h[k], plan, plan.binding.layer, Some(receipt)) == None
    ensures receipt.passed && receipt.sourceLedger == DigestOfLedger(h[k - 1])
    ensures forall other :: RequireDownstreamHealth(h[k], plan, plan.binding.layer, Some(other)) == None ==> other == receipt
  {
    PrefixInvariant(h, a, k);
    PrefixInvariant(h, a, k - 1);
    assert Perform(h[k - 1], a[k - 1]) == Ok(h[k]);
    receipt := a[k - 1].support.health.value;
    forall other ensures RequireDownstreamHealth(h[k], plan, plan.binding.layer, Some(other)) == None <==> other == receipt {
      HealthyStepOpensTheGate(plan, h[k - 1], a[k - 1].at, a[k - 1].support, h[k], other);
    }
  }

  /** A receipt built for an applied ledger, with its checks passed, takes it to HEALTHY
      as soon as its contract is published and read back. */
  lemma BuiltHealthIsSufficient(
      plan: PlanRecord, l: Ledger, before: Option<StateRead>, after: Option<StateRead>, speculation: Option<Classification>,
      outputsDigest: string, outputCount: int, contract: string, checkedAt: int, checks: seq<Check>, at: int)
    requires ValidDocument(l)
    requires BuildHealthReceipt(plan, l, before, after, speculation, outputsDigest, outputCount, contract, checkedAt, checks).Ok?
    ensures var receipt := BuildHealthReceipt(plan, l, before, after, speculation, outputsDigest, outputCount, contract, checkedAt, checks).value;
            var published := Publication(DigestOfHealth(receipt), contract, contract);
            var step := PrepareTransition(l, Healthy, l.version, DigestOfLedger(l), at,
                                          NO_SUPPORT.(health := Some(receipt), publication := Some(published)));
            && (step.Ok? <==> AllPassed(checks))
            && (step.Ok? ==> RequireDownstreamHealth(step.value, plan, plan.binding.layer, Some(receipt)) == None)
  {
    hide ChecksUsable, AllPassed, Fingerprint;
    var receipt := BuildHealthReceipt(plan, l, before, after, speculation, outputsDigest, outputCount, contract, checkedAt, checks).value;
    var s := NO_SUPPORT.(health := Some(receipt), publication := Some(Publication(DigestOfHealth(receipt), contract, contract)));
    var step := PrepareTransition(l, Healthy, l.version, DigestOfLedger(l), at, s);
    if step.Ok? { HealthyStepOpensTheGate(plan, l, at, s, step.value, receipt); }
  }

  /** For a plan over present state: with changes, every bracket that reconciles also
      passes the health state test (and conversely); without changes, no bracket does both. */
  lemma StateTestsCompared(plan: PlanRecord, state: StateRead)
    requires plan.state.PresentState? && state.PresentState?
    ensures plan.classification == Change ==> (StateReconciles(plan, state) <==> StateError(plan, state).None?)
    ensures plan.classification == NoChange ==> !(StateReconciles(plan, state) && StateError(plan, state).None?)
  {
  }

  /** The evidence of this step was built by the receipt builders for this plan. */
  ghost predicate EvidenceBuilt(plan: PlanRecord, l: Ledger, a: Action) {
    && (a.Move? && a.next == ReconciledApplied && a.support.reconciliation.Some? ==>
          exists before, after, speculation, verified, at ::
            BuildReconciliationReceipt(plan, l, before, after, speculation, verified, at) == Ok(a.support.reconciliation.value))
    && (a.Move? && a.next == Healthy && a.support.health.Some? ==>
          exists before, after, speculation, outputs, count, contract, at, checks ::
            BuildHealthReceipt(plan, l, before, after, speculation, outputs, count, contract, at, checks) == Ok(a.support.health.value))
  }

  ghost predicate AllBuilt(plan: PlanRecord, h: seq<Ledger>, a: seq<Action>) {
    |h| == |a| + 1 && forall i :: 0 <= i < |a| ==> EvidenceBuilt(plan, h[i], a[i])
  }

  /** The state serial seen by the evidence of a step. */
  function SerialSeen(a: Action): Option<int> {
    if a.Move? && a.next == ReconciledApplied && a.support.reconciliation.Some? && a.support.reconciliation.value.state.PresentState?
    then Some(a.support.reconciliation.value.state.serial)
    else if a.Move? && a.next == Healthy && a.support.health.Some? && a.support.health.value.state.PresentState?
    then Some(a.support.health.value.state.serial)
    else None
  }

  ghost predicate SerialsDoNotDecrease(a: seq<Action>) {
    forall i, j :: 0 <= i < j < |a| && SerialSeen(a[i]).Some? && SerialSeen(a[j]).Some? ==> SerialSeen(a[i]).value <= SerialSeen(a[j]).value
  }

  lemma BuiltReconciliationFacts(plan: PlanRecord, l: Ledger, a: Action)
    requires EvidenceBuilt(plan, l, a) && a.Move? && a.next == ReconciledApplied && a.support.reconciliation.Some?
    requires a.support.reconciliation.value.decision == ReconciledApplied
    ensures var state := a.support.reconciliation.value.state;
            state.PresentState? && StateReconciles(plan, state) && Fingerprint(state)
    ensures SerialSeen(a) == Some(a.support.reconciliation.value.state.serial)
  {
    hide Fingerprint;
  }

  lemma BuiltHealthFacts(plan: PlanRecord, l: Ledger, a: Action)
    requires EvidenceBuilt(plan, l, a) && a.Move? && a.next == Healthy && a.support.health.Some?
    ensures var state := a.support.health.value.state; state.PresentState? && StateError(plan, state).None?
    ensures SerialSeen(a) == Some(a.support.health.value.state.serial)
  {
    hide Fingerprint, AllPassed, ChecksUsable;
  }

  /** For a NO_CHANGE plan over present state, an attempt that ever became UNCERTAIN can
      never become HEALTHY, as long as Terraform serials do not decrease: reconciling
      needs a serial that advanced, health needs the serial of the plan. */
  lemma NoChangeNeverRecovers(plan: PlanRecord, at: int, h: seq<Ledger>, a: seq<Action>, j: nat, k: nat)
    requires History(h, a) && h[0] == InitialLedger(plan, at) && j < k < |h|
    requires plan.state.PresentState? && plan.classification == NoChange
    requires AllBuilt(plan, h, a) && SerialsDoNotDecrease(a)
    requires h[j].status == Uncertain
    ensures h[k].status != Healthy
  {
    if h[k].status == Healthy {
      var m := LastReconciled(h, a, j, k);
      StepBefore(h, a, m);
      BuiltReconciliationFacts(plan, h[m - 1], a[m - 1]);
      StepBefore(h, a, k);
      BuiltHealthFacts(plan, h[k - 1], a[k - 1]);
      assert false;
    }
  }

  /** Between UNCERTAIN and HEALTHY lies RECONCILED_APPLIED. */
  lemma {:induction false} LastReconciled(h: seq<Ledger>, a: seq<Action>, j: nat, k: nat) returns (m: nat)
    requires History(h, a) && j < k < |h| && h[j].status == Uncertain && h[k].status == Healthy
    ensures j < m < k && h[m].status == ReconciledApplied
  {
    PrefixInvariant(h, a, k - 1);
    StepKeeps(h[k - 1], a[k - 1], h[k], k - 1);
    NoWayBack(h, a, j, k - 1);
    m := k - 1;
  }

  lemma StepBefore(h: seq<Ledger>, a: seq<Action>, m: nat)
    requires History(h, a) && 0 < m < |h|
    ensures Perform(h[m - 1], a[m - 1]) == Ok(h[m])
    ensures h[m].status == Healthy ==> a[m - 1].Move? && a[m - 1].next == Healthy && a[m - 1].support.health.Some?
    ensures h[m].status == ReconciledApplied ==>
              a[m - 1].Move? && a[m - 1].next == ReconciledApplied && a[m - 1].support.reconciliation.Some?
              && a[m - 1].support.reconciliation.value.decision == ReconciledApplied
  {
    PrefixInvariant(h, a, m - 1);
    assert Perform(h[m - 1], a[m - 1]) == Ok(h[m]);
  }

  // ---------------------------------------------------------------- which plans can recover

  /** A run of this plan, all of its evidence built, serials never decreasing, that is
      UNCERTAIN at step j and HEALTHY at the later step k. */
  ghost predicate Recovery(plan: PlanRecord, at: int, h: seq<Ledger>, a: seq<Action>, j: nat, k: nat) {
    && History(h, a) && h[0] == InitialLedger(plan, at) && j < k < |h|
    && AllBuilt(plan, h, a) && SerialsDoNotDecrease(a)
    && h[j].status == Uncertain && h[k].status == Healthy
  }

  ghost predicate Recovers(plan: PlanRecord, at: int) {
    exists h, a, j, k :: Recovery(plan, at, h, a, j, k)
  }

  function SomeApproval(plan: PlanRecord, at: int): Approval {
    var who := plan.authority;
    Approval(plan.binding, DigestOf(plan), who, who.environment, who.identity, who.configuration, 1, 1, who.reviewer + 1,
             who.reviewer, who.reviewer, DigestOf(plan), at, at, at + SECOND)
  }

  lemma OneMoreStep(h: seq<Ledger>, a: seq<Action>, action: Action) returns (h': seq<Ledger>, a': seq<Action>)
    requires History(h, a) && Perform(h[|a|], action).Ok?
    ensures h' == h + [Perform(h[|a|], action).value] && a' == a + [action] && History(h', a')
    ensures forall plan :: AllBuilt(plan, h, a) && EvidenceBuilt(plan, h[|a|], action) ==> AllBuilt(plan, h', a')
  {
    hide Perform, Starts, EvidenceBuilt;
    h', a' := h + [Perform(h[|a|], action).value], a + [action];
    forall i | 0 <= i < |a'| ensures Perform(h'[i], a'[i]) == Ok(h'[i + 1]) {
      if i < |a| { assert Perform(h[i], a[i]) == Ok(h[i + 1]); }
    }
  }

  /** Every plan, whatever its classification and state, has a run that becomes UNCERTAIN:
      its apply starts and the answer is lost. */
  lemma AnyPlanCanBeUncertain(plan: PlanRecord, at: int) returns (h: seq<Ledger>, a: seq<Action>)
    ensures History(h, a) && h[0] == InitialLedger(plan, at) && |a| == 3 && h[3].status == Uncertain
    ensures h[3].binding == plan.binding && h[3].plan == DigestOf(plan)
    ensures AllBuilt(plan, h, a) && forall i :: 0 <= i < |a| ==> SerialSeen(a[i]) == None
  {
    h, a := [InitialLedger(plan, at)], [];
    h, a := OneMoreStep(h, a, Move(Approved, at, NO_SUPPORT.(approval := Some(SomeApproval(plan, at)))));
    h, a := OneMoreStep(h, a, Move(Applying, at, NO_SUPPORT));
    h, a := OneMoreStep(h, a, Move(Uncertain, at, NO_SUPPORT.(code := Some(ResponseLost))));
  }

  function SomeDigest(): (s: string)
    ensures IsDigest(s)
  {
    "sha256:" + seq(64, i => '0')
  }

  /** A state read that follows the state of the plan. */
  function LaterState(plan: PlanRecord): StateRead {
    if plan.state.AbsentState? then PresentState("lineage0", 0, "v", SomeDigest(), 2)
    else PresentState(plan.state.lineage, if plan.state.serial < 0 then 0 else plan.state.serial + 1, "v", SomeDigest(), 2)
  }

  lemma LaterStateFits(plan: PlanRecord)
    requires plan.state.AbsentState? || (plan.classification == Change && ValidLineage(plan.state.lineage))
    ensures Fingerprint(LaterState(plan)) && StateError(plan, LaterState(plan)).None?
  {
    assert ValidLineage("lineage0");
  }

  /** Reconciles an UNCERTAIN ledger with built evidence. */
  lemma Reconcile(plan: PlanRecord, l: Ledger, at: int) returns (action: Action)
    requires ValidDocument(l) && l.status == Uncertain && l.binding == plan.binding && l.plan == DigestOf(plan)
    requires Fingerprint(LaterState(plan))
    ensures EvidenceBuilt(plan, l, action) && SerialSeen(action) == Some(LaterState(plan).serial)
    ensures Perform(l, action).Ok? && Perform(l, action).value.status == ReconciledApplied
    ensures var n := Perform(l, action).value; ValidDocument(n) && n.binding == plan.binding && n.plan == DigestOf(plan)
  {
    hide Fingerprint;
    var state := Some(LaterState(plan));
    var receipt := BuildReconciliationReceipt(plan, l, state, state, Speculation(PlanNoChange, Some(NoChange)), true, at);
    action := Move(ReconciledApplied, at, NO_SUPPORT.(reconciliation := Some(receipt.value)));
  }

  /** Declares a reconciled ledger HEALTHY with built evidence. */
  lemma Declare(plan: PlanRecord, l: Ledger, at: int) returns (action: Action)
    requires ValidDocument(l) && l.status == ReconciledApplied && l.binding == plan.binding && l.plan == DigestOf(plan)
    requires Fingerprint(LaterState(plan)) && StateError(plan, LaterState(plan)).None?
    ensures EvidenceBuilt(plan, l, action) && SerialSeen(action) == Some(LaterState(plan).serial)
    ensures Perform(l, action).Ok? && Perform(l, action).value.status == Healthy
  {
    var state, checks := Some(LaterState(plan)), [Check("outputs", true)];
    var receipt := BuildHealthReceipt(plan, l, state, state, Some(NoChange), SomeDigest(), 0, SomeDigest(), at, checks);
    assert AllPassed(checks) && ChecksUsable(checks);
    hide Fingerprint, IsDigest;
    var publication := Publication(DigestOfHealth(receipt.value), SomeDigest(), SomeDigest());
    action := Move(Healthy, at, NO_SUPPORT.(health := Some(receipt.value), publication := Some(publication)));
  }

  /** With changes, or over absent state, a plan does recover: UNCERTAIN, then reconciled,
      then HEALTHY. */
  lemma RecoveringRun(plan: PlanRecord, at: int) returns (h: seq<Ledger>, a: seq<Action>)
    requires plan.state.AbsentState? || (plan.classification == Change && ValidLineage(plan.state.lineage))
    ensures Recovery(plan, at, h, a, 3, 5)
  {
    hide Perform, EvidenceBuilt, AllBuilt, Starts, Fingerprint, StateError, LaterState, ValidLineage, SerialSeen;
    h, a := AnyPlanCanBeUncertain(plan, at);
    LaterStateFits(plan);
    PrefixInvariant(h, a, 3);
    var action := Reconcile(plan, h[3], at);
    h, a := OneMoreStep(h, a, action);
    action := Declare(plan, h[4], at);
    h, a := OneMoreStep(h, a, action);
  }

  /** A plan can recover exactly if its state was absent or it is classified CHANGE (and
      its state has a lineage at all, as every stored plan over present state has). */
  lemma RecoversIff(plan: PlanRecord, at: int)
    ensures Recovers(plan, at)
      <==> plan.state.AbsentState? || (plan.classification == Change && ValidLineage(plan.state.lineage))
  {
    hide EvidenceBuilt, History, SerialsDoNotDecrease, ValidLineage;
    if plan.state.AbsentState? || (plan.classification == Change && ValidLineage(plan.state.lineage)) {
      var h, a := RecoveringRun(plan, at);
    }
    if Recovers(plan, at) && plan.state.PresentState? {
      var h, a, j, k :| Recovery(plan, at, h, a, j, k);
      if plan.classification == NoChange {
        NoChangeNeverRecovers(plan, at, h, a, j, k);
        assert false;
      } else {
        RecoveryShowsLineage(plan, at, h, a, j, k);
      }
    }
  }

  lemma RecoveryShowsLineage(plan: PlanRecord, at: int, h: seq<Ledger>, a: seq<Action>, j: nat, k: nat)
    requires Recovery(plan, at, h, a, j, k) && plan.state.PresentState?
    ensures ValidLineage(plan.state.lineage)
  {
    hide EvidenceBuilt, Perform, SerialsDoNotDecrease;
    var m := LastReconciled(h, a, j, k);
    StepBefore(h, a, m);
    BuiltReconciliationFacts(plan, h[m - 1], a[m - 1]);
  }

  /** In a history whose evidence was all built, RECONCILED_APPLIED was reached with a
      receipt made from a speculation without changes, a verified contract, and a state that
      advanced in the lineage of the plan, unless the plan was made over absent state. */
  lemma ReconciledNeedsProof(plan: PlanRecord, h: seq<Ledger>, a: seq<Action>, k: nat) returns (state: StateRead, checkedAt: int)
    requires History(h, a) && AllBuilt(plan, h, a) && 0 < k < |h| && h[k].status == ReconciledApplied
    ensures a[k - 1].Move? && a[k - 1].support.reconciliation.Some?
    ensures BuildReconciliationReceipt(plan, h[k - 1], Some(state), Some(state), Speculation(PlanNoChange, Some(NoChange)), true, checkedAt)
            == Ok(a[k - 1].support.reconciliation.value)
    ensures plan.state.AbsentState? || (state.PresentState? && state.lineage == plan.state.lineage && state.serial > plan.state.serial)
  {
    hide Fingerprint, Perform, BuildReconciliationReceipt;
    StepBefore(h, a, k);
    var l, receipt := h[k - 1], a[k - 1].support.reconciliation.value;
    assert EvidenceBuilt(plan, l, a[k - 1]);
    var before, after, speculation, verified, at :|
      BuildReconciliationReceipt(plan, l, before, after, speculation, verified, at) == Ok(receipt);
    ReconciliationIsExact(plan, l, before, after, speculation, verified, at);
    FingerprintIsPresent(before.value);
    state, checkedAt := before.value, at;
    assert BuildReconciliationReceipt(plan, l, Some(before.value), Some(before.value), Speculation(PlanNoChange, Some(NoChange)), true, at) == Ok(receipt);
  }

  lemma FingerprintIsPresent(s: StateRead)
    requires Fingerprint(s)
    ensures s.PresentState?
  {
  }

  /** The gate accepts exactly the HEALTHY ledger of this plan and layer whose evidence is
      the receipt, a passed one for the version before, and whose contract is published. */
  lemma GateIsExact(l: Ledger, plan: PlanRecord, layer: string, receipt: Option<HealthReceipt>)
    ensures RequireDownstreamHealth(l, plan, layer, receipt) == None <==>
      && l.status == Healthy && l.publication.Some? && l.plan == DigestOf(plan) && l.binding == plan.binding && plan.binding.layer == layer
      && receipt.Some? && l.evidence == Some(DigestOfHealth(receipt.value)) && receipt.value.passed
      && receipt.value.plan == DigestOf(plan) && receipt.value.binding == plan.binding && receipt.value.sourceVersion + 1 == l.version
  {
  }
}
