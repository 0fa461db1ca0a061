/** The apply intent: built before the attempt is consumed, validated again before
    Terraform runs, possibly in another process and later. */
module ApplyIntent {
  import opened Outcomes
  import opened LedgerEngine

  /** An absolute path as text, split at its slashes. */
  type Path = seq<string>

  /** The sealed context of the workflow run. */
  datatype Context = Context(
    binding: Binding, bindings: seq<string>, environment: string, configuration: string, authority: Authority,
    runId: int, runAttempt: int, initiator: int, expectedApprover: int, applyRole: string, sourceSha: string)

  datatype Command = Command(plan: Path, inputs: seq<Path>, binding: Binding, role: string, sourceSha: string)

  datatype Intent = Intent(
    authorizedAt: int, context: ContextDigest, runAttempt: int,
    plan: Digest<PlanRecord>, approval: ApprovalDigest, approvedLedger: LedgerDigest, approvedVersion: int,
    bindings: seq<string>, planReadback: (string, string), stateReadback: StateRead,
    proposed: Ledger, expectedRole: string, expectedSha: string, planPath: Path, inputPaths: seq<Path>, command: Command)

  /** An intent with the digest it claims. */
  datatype SignedIntent = Signed(intent: Intent, digest: IntentDigest)

  // The digests an intent carries, each injective like every other digest.
  datatype ContextDigest = DigestOfContext(content: Context)

  datatype ApprovalDigest = DigestOfApproval(content: Approval)

  datatype IntentDigest = DigestOfIntent(content: Intent)

  datatype IntentError =
    | ContextMismatch | RunMismatch | PathInvalid | NotAuthorized | TransitionRefused
    | DigestMismatch | BindingMismatch | ReadbackMismatch | ApplyingMismatch

  /** Path text is normalized by dropping empty and "." segments. */
  function Normal(p: Path): Path {
    if p == [] then [] else (if p[0] == "" || p[0] == "." then [] else [p[0]]) + Normal(p[1..])
  }

  predicate PathUsable(p: Path) {
    ".." !in p
  }

  predicate EndsIn(s: string, suffix: string) {
    |s| > |suffix| && s[|s| - |suffix|..] == suffix
  }

  predicate IsPlanPath(p: Path) {
    PathUsable(p) && Normal(p) != [] && EndsIn(Normal(p)[|Normal(p)| - 1], ".tfplan")
  }

  /** How many input files an apply names, besides the plan. */
  const INPUT_PATHS := 13

  predicate InputPathsUsable(ps: seq<Path>) {
    |ps| == INPUT_PATHS && forall i :: 0 <= i < |ps| ==> PathUsable(ps[i])
  }

  function NormalAll(ps: seq<Path>): (r: seq<Path>)
    ensures |r| == |ps| && forall i :: 0 <= i < |ps| ==> r[i] == Normal(ps[i])
  {
    if ps == [] then [] else [Normal(ps[0])] + NormalAll(ps[1..])
  }

  lemma {:induction false} NormalIsStable(p: Path)
    ensures Normal(Normal(p)) == Normal(p)
    ensures ".." !in p ==> ".." !in Normal(p)
  {
    if p != [] {
      NormalIsStable(p[1..]);
      if p[0] != "" && p[0] != "." {
        assert Normal(p)[1..] == Normal(p[1..]);
      } else {
        assert Normal(p) == Normal(p[1..]);
      }
    }
  }

  predicate RunBound(c: Context, a: Approval) {
    && a.runId == c.runId && a.runAttempt == c.runAttempt
    && a.environment == c.environment && a.configuration == c.configuration
    && a.initiator == c.initiator && a.expectedApprover == c.expectedApprover
    && a.authority == c.authority && a.approver != c.initiator
  }

  predicate BindingsExpected(c: Context, b: seq<string>) {
    |c.bindings| <= |b| && b[..|c.bindings|] == c.bindings
  }

  /** The approval was given for this plan, inside the lifetime of the plan. */
  predicate PlanApproved(plan: PlanRecord, a: Approval) {
    && a.binding == plan.binding && a.plan == DigestOf(plan) && a.packet == DigestOf(plan)
    && a.environment == plan.authority.environment && a.configuration == plan.authority.configuration
    && a.identity == plan.authority.identity && a.authority == plan.authority
    && a.expectedApprover == plan.authority.reviewer && a.runAttempt == 1
    && plan.createdAt <= a.windowStart <= a.observedAt < a.expiresAt <= plan.expiresAt
  }

  /** The decision on one exact plan, ledger, approval and readback, at one time. */
  predicate Authorized(plan: PlanRecord, l: Ledger, a: Approval, bindings: seq<string>,
                       planReadback: (string, string), stateReadback: StateRead, now: int)
  {
    && plan.createdAt <= now < plan.expiresAt
    && ApprovalCurrent(a, now)
    && bindings == plan.bindings
    && l.binding == plan.binding && l.plan == DigestOf(plan)
    && l.authority == plan.authority && l.anchor == plan.anchor && l.reviewer == plan.authority.reviewer
    && PlanApproved(plan, a)
    && l.approval == Some(DigestOf(a)) && l.status == Approved && l.attempts == 0
    && planReadback == (plan.storage, plan.planBinary) && stateReadback == plan.state
  }

  function BuildApplyIntent(
    c: Context, plan: PlanRecord, l: Ledger, a: Approval, bindings: seq<string>, planReadback: (string, string),
    stateReadback: StateRead, planPath: Path, inputPaths: seq<Path>, now: int): Result<SignedIntent, IntentError>
  {
    if !BindingsExpected(c, bindings) then Err(ContextMismatch)
    else if !RunBound(c, a) then Err(RunMismatch)
    else if !IsPlanPath(planPath) || !InputPathsUsable(inputPaths) then Err(PathInvalid)
    else if !Authorized(plan, l, a, bindings, planReadback, stateReadback, now) then Err(NotAuthorized)
    else
      var applying := PrepareTransition(l, Applying, l.version, DigestOfLedger(l), now, NO_SUPPORT);
      if applying.Err? then Err(TransitionRefused)
      else
        var command := Command(Normal(planPath), NormalAll(inputPaths), c.binding, c.applyRole, c.sourceSha);
        var intent := Intent(
          ToSecond(now), DigestOfContext(c), c.runAttempt, DigestOf(plan), DigestOfApproval(a), DigestOfLedger(l), l.version,
          bindings, planReadback, stateReadback, applying.value, c.applyRole, c.sourceSha,
          Normal(planPath), NormalAll(inputPaths), command);
        Ok(Signed(intent, DigestOfIntent(intent)))
  }

  /** None means the intent is accepted. */
  function ValidateApplyIntent(
    signed: SignedIntent, c: Context, plan: PlanRecord, a: Approval, approved: Ledger, applying: Ledger,
    planReadback: (string, string), stateReadback: StateRead, now: int): Option<IntentError>
  {
    var intent := signed.intent;
    if signed.digest != DigestOfIntent(intent) then Some(DigestMismatch)
    else if intent.context != DigestOfContext(c) || intent.runAttempt != c.runAttempt || intent.plan != DigestOf(plan)
            || intent.approval != DigestOfApproval(a) || intent.approvedLedger != DigestOfLedger(approved)
            || intent.approvedVersion != approved.version then Some(BindingMismatch)
    else if intent.planReadback != planReadback || intent.stateReadback != stateReadback then Some(ReadbackMismatch)
    else if !RunBound(c, a) then Some(RunMismatch)
    else if !BindingsExpected(c, intent.bindings) then Some(ContextMismatch)
    else if !Authorized(plan, approved, a, intent.bindings, planReadback, stateReadback, now) then Some(NotAuthorized)
    else
      var proposed := PrepareTransition(approved, Applying, approved.version, DigestOfLedger(approved), intent.authorizedAt, NO_SUPPORT);
      if proposed.Err? then Some(TransitionRefused)
      else if intent.proposed != proposed.value || applying != proposed.value then Some(ApplyingMismatch)
      else
        var rebuilt := BuildApplyIntent(c, plan, approved, a, intent.bindings, planReadback, stateReadback,
                                        intent.planPath, intent.inputPaths, intent.authorizedAt);
        if rebuilt.Err? then Some(rebuilt.error)
        else if rebuilt.value != signed then Some(BindingMismatch) else None
  }

  // ---------------------------------------------------------------- the round trip

  lemma RebuiltPaths(p: Path, ps: seq<Path>)
    requires IsPlanPath(p) && InputPathsUsable(ps)
    ensures IsPlanPath(Normal(p)) && InputPathsUsable(NormalAll(ps))
    ensures Normal(Normal(p)) == Normal(p) && NormalAll(NormalAll(ps)) == NormalAll(ps)
  {
    NormalIsStable(p);
    forall i | 0 <= i < |ps| ensures Normal(Normal(ps[i])) == Normal(ps[i]) && PathUsable(Normal(ps[i])) {
      NormalIsStable(ps[i]);
    }
  }

  /** A freshly built intent, validated at any later time before the plan and the approval
      expire, is accepted exactly with its own APPLYING ledger, and exactly if the plan
      was created and the approval observed no later than the authorization time rounded
      down to a second: the validation rebuilds the intent at that rounded time. */
  lemma RoundTrip(c: Context, plan: PlanRecord, l: Ledger, a: Approval, bindings: seq<string>, planReadback: (string, string),
                  stateReadback: StateRead, planPath: Path, inputPaths: seq<Path>, now: int, later: int, applying: Ledger)
    requires BuildApplyIntent(c, plan, l, a, bindings, planReadback, stateReadback, planPath, inputPaths, now).Ok?
    requires now <= later < plan.expiresAt && later < a.expiresAt
    ensures var signed := BuildApplyIntent(c, plan, l, a, bindings, planReadback, stateReadback, planPath, inputPaths, now).value;
            ValidateApplyIntent(signed, c, plan, a, l, applying, planReadback, stateReadback, later) == None
            <==> applying == signed.intent.proposed && plan.createdAt <= ToSecond(now) && a.observedAt <= ToSecond(now)
  {
    hide Normal, NormalAll, IsPlanPath, InputPathsUsable, RunBound, BindingsExpected, PlanApproved;
    RebuiltPaths(planPath, inputPaths);
    WholeSecondsSurvive(now);
  }

  /** With times of whole seconds, as every record builder writes them, the round trip
      holds at every later time and for no other APPLYING ledger. */
  lemma RoundTripOnWholeSeconds(
      c: Context, plan: PlanRecord, l: Ledger, a: Approval, bindings: seq<string>, planReadback: (string, string),
      stateReadback: StateRead, planPath: Path, inputPaths: seq<Path>, now: int, later: int, applying: Ledger)
    requires plan.createdAt % SECOND == 0 && a.observedAt % SECOND == 0
    requires BuildApplyIntent(c, plan, l, a, bindings, planReadback, stateReadback, planPath, inputPaths, now).Ok?
    requires now <= later < plan.expiresAt && later < a.expiresAt
    ensures var signed := BuildApplyIntent(c, plan, l, a, bindings, planReadback, stateReadback, planPath, inputPaths, now).value;
            ValidateApplyIntent(signed, c, plan, a, l, applying, planReadback, stateReadback, later) == None
            <==> applying == signed.intent.proposed
  {
    RoundTrip(c, plan, l, a, bindings, planReadback, stateReadback, planPath, inputPaths, now, later, applying);
    RoundingKeepsBounds(plan.createdAt, now);
    RoundingKeepsBounds(a.observedAt, now);
    assert Authorized(plan, l, a, bindings, planReadback, stateReadback, now);
  }

  /** An accepted intent is the one that would be built now at its own authorization
      time: nothing in it can differ, and it binds exactly one APPLYING ledger. */
  lemma AcceptedIntentIsExact(signed: SignedIntent, c: Context, plan: PlanRecord, a: Approval, approved: Ledger, applying: Ledger,
                              planReadback: (string, string), stateReadback: StateRead, now: int)
    requires ValidateApplyIntent(signed, c, plan, a, approved, applying, planReadback, stateReadback, now) == None
    ensures applying == signed.intent.proposed && applying.status == Applying && applying.version == approved.version + 1
    ensures applying.approval == Some(DigestOf(a)) && approved.attempts == 0 && applying.attempts == 1
    ensures signed.intent.planPath == Normal(signed.intent.planPath)
    ensures signed.intent.command.plan == signed.intent.planPath && signed.intent.authorizedAt % SECOND == 0
    ensures var i := signed.intent;
            && i.command == Command(i.planPath, i.inputPaths, c.binding, c.applyRole, c.sourceSha)
            && i.expectedRole == c.applyRole && i.expectedSha == c.sourceSha && i.runAttempt == c.runAttempt
            && |i.inputPaths| == 13 && (forall k :: 0 <= k < 13 ==> ".." !in i.inputPaths[k]) && ".." !in i.planPath
            && i.bindings == plan.bindings && i.planReadback == (plan.storage, plan.planBinary) && i.stateReadback == plan.state
            && applying.updatedAt == i.authorizedAt
  {
    hide Normal, NormalAll, EndsIn;
    WholeSecondsSurvive(signed.intent.authorizedAt);
  }

  /** The plan path is a file with the suffix of saved plans, and no step leads up. */
  lemma PlanPathIsASavedPlan(p: Path) returns (stem: string)
    requires IsPlanPath(p)
    ensures ".." !in p && stem != "" && Normal(p) != [] && Normal(p)[|Normal(p)| - 1] == stem + ".tfplan"
  {
    var last := Normal(p)[|Normal(p)| - 1];
    stem := last[..|last| - 7];
    assert last == stem + last[|last| - 7..];
  }

  /** An intent cannot be used for anything else: whoever accepts it twice has the same
      context, plan, approval and ledgers both times, and read the same plan and state. */
  lemma IntentFixesEverything(
      signed: SignedIntent, c: Context, plan: PlanRecord, a: Approval, approved: Ledger, applying: Ledger,
      planReadback: (string, string), stateReadback: StateRead, now: int,
      c': Context, plan': PlanRecord, a': Approval, approved': Ledger, applying': Ledger,
      planReadback': (string, string), stateReadback': StateRead, now': int)
    requires ValidateApplyIntent(signed, c, plan, a, approved, applying, planReadback, stateReadback, now) == None
    requires ValidateApplyIntent(signed, c', plan', a', approved', applying', planReadback', stateReadback', now') == None
    ensures c == c' && plan == plan' && a == a' && approved == approved' && applying == applying'
    ensures planReadback == planReadback' && stateReadback == stateReadback'
  {
    hide Normal, NormalAll, IsPlanPath, InputPathsUsable, Authorized, RunBound, BindingsExpected;
  }

  /** A decision is positive exactly for the first ledger of the plan with nothing but the
      approval selected, if that approval is one the ledger itself would take now, was given
      for this plan within its lifetime, and what was read back is what the plan recorded. */
  lemma AuthorizedLedgerIsUnused(plan: PlanRecord, l: Ledger, a: Approval, bindings: seq<string>,
                                 planReadback: (string, string), stateReadback: StateRead, now: int)
    ensures Authorized(plan, l, a, bindings, planReadback, stateReadback, now) <==>
      && l == InitialLedger(plan, 0).(status := Approved, approval := Some(DigestOf(a)), version := l.version, updatedAt := l.updatedAt,
                                      outcome := l.outcome, evidence := l.evidence, publication := l.publication)
      && ApprovalFits(l, a, now) && a.packet == DigestOf(plan)
      && plan.createdAt <= a.windowStart && a.expiresAt <= plan.expiresAt
      && bindings == plan.bindings && planReadback == (plan.storage, plan.planBinary) && stateReadback == plan.state
  {
  }

  /** One approval authorizes one run of one plan, with the readbacks of that plan: whatever
      is built with it agrees on all of these. It is never the approval of the initiator. */
  lemma ApprovalAuthorizesOneRun(
      a: Approval, c: Context, plan: PlanRecord, l: Ledger, bindings: seq<string>, planReadback: (string, string),
      stateReadback: StateRead, planPath: Path, inputPaths: seq<Path>, now: int,
      c': Context, plan': PlanRecord, l': Ledger, bindings': seq<string>, planReadback': (string, string),
      stateReadback': StateRead, planPath': Path, inputPaths': seq<Path>, now': int)
    requires BuildApplyIntent(c, plan, l, a, bindings, planReadback, stateReadback, planPath, inputPaths, now).Ok?
    requires BuildApplyIntent(c', plan', l', a, bindings', planReadback', stateReadback', planPath', inputPaths', now').Ok?
    ensures c.runId == c'.runId && c.runAttempt == c'.runAttempt == 1 && c.initiator == c'.initiator
    ensures c.environment == c'.environment && c.configuration == c'.configuration
    ensures c.authority == c'.authority == plan.authority && c.expectedApprover == c'.expectedApprover == plan.authority.reviewer
    ensures plan == plan' && bindings == bindings' && planReadback == planReadback' && stateReadback == stateReadback'
    ensures c.bindings <= bindings && c'.bindings <= bindings
    ensures a.approver == plan.authority.reviewer != c.initiator && -300 * SECOND < now - now' < 300 * SECOND
  {
    hide Normal, NormalAll, IsPlanPath, InputPathsUsable;
  }

  /** An approval observed after the rounded authorization time builds an intent that no
      later validation accepts. */
  lemma LateApprovalIsRefused(
      c: Context, plan: PlanRecord, l: Ledger, a: Approval, bindings: seq<string>, planReadback: (string, string),
      stateReadback: StateRead, planPath: Path, inputPaths: seq<Path>, now: int)
    requires BuildApplyIntent(c, plan, l, a, bindings, planReadback, stateReadback, planPath, inputPaths, now).Ok?
    requires a.observedAt > ToSecond(now)
    ensures var signed := BuildApplyIntent(c, plan, l, a, bindings, planReadback, stateReadback, planPath, inputPaths, now).value;
            forall later, applying :: now <= later < plan.expiresAt && later < a.expiresAt ==>
              ValidateApplyIntent(signed, c, plan, a, l, applying, planReadback, stateReadback, later) != None
  {
    hide BuildApplyIntent, ValidateApplyIntent;
    var signed := BuildApplyIntent(c, plan, l, a, bindings, planReadback, stateReadback, planPath, inputPaths, now).value;
    forall later, applying | now <= later < plan.expiresAt && later < a.expiresAt
      ensures ValidateApplyIntent(signed, c, plan, a, l, applying, planReadback, stateReadback, later) != None
    {
      RoundTrip(c, plan, l, a, bindings, planReadback, stateReadback, planPath, inputPaths, now, later, applying);
    }
  }

  /** Times with a fraction of a second are allowed by the record schema, and then the
      round trip can fail: an approval observed half a second into second 20, used within
      that same second, builds an intent that no later validation accepts. */
  lemma FractionalTimeIsRefused() returns (c: Context, plan: PlanRecord, l: Ledger, a: Approval, now: int)
    ensures var paths := seq(INPUT_PATHS, i => ["x"]);
            var built := BuildApplyIntent(c, plan, l, a, [], (plan.storage, plan.planBinary), plan.state, ["p.tfplan"], paths, now);
            && built.Ok? && now == a.observedAt
            && forall later, applying :: now <= later < plan.expiresAt && later < a.expiresAt ==>
                 ValidateApplyIntent(built.value, c, plan, a, l, applying, (plan.storage, plan.planBinary), plan.state, later) != None
  {
    var authority := Authority("dev", 7, "identity", "configuration");
    var binding := Binding("dep", "exec", "network", []);
    plan := PlanRecord(binding, [], authority, "anchor", 0, 100 * SECOND, "object", "binary", AbsentState, Change);
    a := Approval(binding, DigestOf(plan), authority, "dev", "identity", "configuration", 1, 1, 5, 7, 7, DigestOf(plan),
                  10 * SECOND, 20 * SECOND + 500_000, 90 * SECOND);
    c := Context(binding, [], "dev", "configuration", authority, 1, 1, 5, 7, "role", "sha");
    l := InitialLedger(plan, 0).(status := Approved, version := 2, approval := Some(DigestOf(a)));
    now := a.observedAt;
    var paths: seq<Path> := seq(INPUT_PATHS, i => ["x"]);
    assert Normal(["p.tfplan"]) == ["p.tfplan"] && "p.tfplan"[|"p.tfplan"| - 7..] == ".tfplan";
    assert IsPlanPath(["p.tfplan"]) && InputPathsUsable(paths);
    var readback := (plan.storage, plan.planBinary);
    assert Authorized(plan, l, a, [], readback, plan.state, now);
    assert BuildApplyIntent(c, plan, l, a, [], readback, plan.state, ["p.tfplan"], paths, now).Ok?;
    LateApprovalIsRefused(c, plan, l, a, [], readback, plan.state, ["p.tfplan"], paths, now);
  }
}
