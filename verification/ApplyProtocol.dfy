/** Any number of apply controllers on one ledger, interleaved call by call, with lost
    requests, lost replies and stale-lease recovery. */
module ApplyProtocol {
  import opened Outcomes
  import opened LedgerEngine
  import opened ConfirmedWrites

  /** A confirmed replacement in progress: what was read, what is proposed, and why. */
  datatype Replacing = Replacing(current: Ledger, proposed: Ledger, action: Action, confirm: Confirm)

  /** Where one controller process stands. */
  datatype Pc =
    | Start
    | Admitted
    | Selecting(job: Replacing)
    | Ready(approved: Ledger)
    | Consuming(job: Replacing)
    | Consumed(applying: Ledger)
    | Settling(applying: Ledger, reported: bool)
    | Closing(job: Replacing)
    | Stopped

  /** One process: the approval of its workflow run and its private root directory. */
  datatype Runner = Runner(approval: Approval, root: nat, pc: Pc)

  /** `intents` are the private roots that hold an apply-intent file; `applied` lists
      the processes that started the Terraform apply, in order; `late` are the requests
      that had not arrived when their call ended and may still arrive, whatever has become
      of the process that sent them. */
  datatype World = World(
    history: seq<Ledger>, actions: seq<Action>, intents: set<nat>, runners: seq<Runner>, applied: seq<nat>,
    late: seq<Replacing>)

  datatype Event =
    | Look(answered: bool, at: int, support: Support)
    | Choose(answered: bool, at: int)
    | Write(delivered: bool, answered: bool)
    | Read(answered: bool)
    | Intend(at: int)
    | Terraform(reported: bool)
    | Settle(next: Status, at: int, delivered: bool)
    | Fail

  /** A step of process `who`, the late arrival of a request, or a bookkeeping step of
      somebody else. */
  datatype Step = By(who: nat, event: Event) | Arrival(k: nat) | Elsewhere(action: Action)

  function Durable(w: World): Ledger
    requires |w.history| > 0
  {
    w.history[|w.history| - 1]
  }

  function At(w: World, who: nat, pc: Pc): World
    requires who < |w.runners|
  {
    w.(runners := w.runners[who := w.runners[who].(pc := pc)])
  }

  function Commit(w: World, next: Ledger, action: Action): World {
    w.(history := w.history + [next], actions := w.actions + [action])
  }

  /** Steps taken outside the apply controller: recovery of a stale lease, rejection,
      expiry and failed health. None of them approves, consumes or reports success. */
  predicate Bookkeeping(a: Action) {
    a.Recover? || (a.Move? && a.next in {Rejected, Expired, Failed, FailedHealth})
  }

  /** What a process that finds the attempt consumed proposes after its read-only checks. */
  function Resumption(l: Ledger, at: int, s: Support): Option<Action> {
    if l.status == Applied || l.status == ReconciledApplied then Some(Move(Healthy, at, s))
    else if l.status == Uncertain && s.reconciliation.Some? then Some(Move(s.reconciliation.value.decision, at, s))
    else None
  }

  /** The selection of this run's approval: first approval, reapproval, or none needed. */
  function Selection(l: Ledger, a: Approval, at: int): Option<Action> {
    if l.status == Planned then Some(Move(Approved, at, NO_SUPPORT.(approval := Some(a))))
    else if l.status == Approved && l.attempts == 0 then Some(Reapprove(a, at))
    else None
  }

  function Propose(l: Ledger, a: Option<Action>): Option<Replacing> {
    if a.Some? && Perform(l, a.value).Ok? then Some(Replacing(l, Perform(l, a.value).value, a.value, Writing(0))) else None
  }

  /** One call of a confirmed replacement. */
  function Call(w: World, job: Replacing, e: Event): (World, Replacing)
    requires |w.history| > 0
  {
    if e.Write? && job.confirm.Writing? then
      var committed := e.delivered && Durable(w) == job.current;
      var w' := if committed then Commit(w, job.proposed, job.action)
                else if e.delivered then w else w.(late := w.late + [job]);
      (w', job.(confirm := Reply(job.confirm, job.current, job.proposed, Wrote(committed, committed && e.answered))))
    else if e.Read? && job.confirm.Reading? then
      (w, job.(confirm := Reply(job.confirm, job.current, job.proposed, Saw(if e.answered then Some(Durable(w)) else None))))
    else (w, job)
  }

  function Next(w: World, s: Step): World
    requires |w.history| > 0
  {
    match s
    case Elsewhere(action) =>
      if Bookkeeping(action) && Perform(Durable(w), action).Ok?
      then Commit(w, Perform(Durable(w), action).value, action) else w
    case Arrival(k) =>
      if k < |w.late| && Durable(w) == w.late[k].current then Commit(w, w.late[k].proposed, w.late[k].action) else w
    case By(who, e) => if who < |w.runners| then Advance(w, who, w.runners[who], e) else w
  }

  function Advance(w: World, who: nat, r: Runner, e: Event): World
    requires |w.history| > 0 && who < |w.runners|
  {
    match r.pc
    case Start =>
      if !e.Look? then w
      else if !e.answered || Durable(w).status in {Applying, Healthy, ReconciliationRequired} then At(w, who, Stopped)
      else if Durable(w).status in {Applied, ReconciledApplied, Uncertain} then
        var job := Propose(Durable(w), Resumption(Durable(w), e.at, e.support));
        At(w, who, if job.Some? then Closing(job.value) else Stopped)
      else At(w, who, Admitted)
    case Admitted =>
      if !e.Choose? then w
      else if !e.answered then At(w, who, Stopped)
      else if Durable(w).status == Approved && Durable(w).attempts == 0 && Durable(w).approval == Some(DigestOf(r.approval))
      then At(w, who, Ready(Durable(w)))
      else
        var job := Propose(Durable(w), Selection(Durable(w), r.approval, e.at));
        At(w, who, if job.Some? then Selecting(job.value) else Stopped)
    case Selecting(job) =>
      if e.Fail? then At(w, who, Stopped)
      else
        var (w', job') := Call(w, job, e);
        At(w', who, match job'.confirm
                    case Settled(Ok(l)) => Ready(l)
                    case Settled(Err(_)) => Stopped
                    case _ => Selecting(job'))
    case Ready(approved) =>
      if e.Fail? then At(w, who, Stopped)
      else if !e.Intend? then w
      else
        var job := Propose(approved, Some(Move(Applying, e.at, NO_SUPPORT)));
        if job.None? || r.root in w.intents || !ApprovalCurrent(r.approval, e.at)
           || approved.approval != Some(DigestOf(r.approval)) then At(w, who, Stopped)
        else At(w, who, Consuming(job.value)).(intents := w.intents + {r.root})
    case Consuming(job) =>
      if e.Fail? then At(w, who, Stopped)
      else
        var (w', job') := Call(w, job, e);
        At(w', who, match job'.confirm
                    case Settled(Ok(l)) => Consumed(l)
                    case Settled(Err(_)) => Stopped
                    case _ => Consuming(job'))
    case Consumed(applying) =>
      if e.Fail? then At(w, who, Settling(applying, false))
      else if e.Terraform? then At(w, who, Settling(applying, e.reported)).(applied := w.applied + [who])
      else w
    case Settling(applying, reported) =>
      if !e.Settle? || !e.delivered || Durable(w) != applying then w
      else if e.next == Applied && reported then CommitIfLegal(w, applying, Move(Applied, e.at, NO_SUPPORT.(code := Some(ApplySucceeded))))
      else if e.next == Uncertain then CommitIfLegal(w, applying, Move(Uncertain, e.at, NO_SUPPORT.(code := Some(ResponseLost))))
      else w
    case Closing(job) =>
      if e.Fail? then At(w, who, Stopped)
      else
        var (w', job') := Call(w, job, e);
        At(w', who, if job'.confirm.Settled? then Stopped else Closing(job'))
    case Stopped => w
  }

  function CommitIfLegal(w: World, applying: Ledger, action: Action): World {
    if Perform(applying, action).Ok? then Commit(w, Perform(applying, action).value, action) else w
  }

  function Initial(plan: PlanRecord, at: int, runners: seq<Runner>): World {
    World([InitialLedger(plan, at)], [], {}, runners, [], [])
  }

  function Run(w: World, steps: seq<Step>): (r: World)
    requires |w.history| > 0
    ensures |r.history| > 0
  {
    if steps == [] then w else
      var before := Run(w, steps[..|steps| - 1]);
      NextKeepsHistory(before, steps[|steps| - 1]);
      Next(before, steps[|steps| - 1])
  }

  lemma NextKeepsHistory(w: World, s: Step)
    requires |w.history| > 0
    ensures |Next(w, s).history| >= |w.history|
  {
    hide Perform;
  }

  // ---------------------------------------------------------------- what every interleaving keeps

  predicate Past(pc: Pc) {
    pc.Consuming? || pc.Consumed? || pc.Settling?
  }

  /** The durable proof a process holds at each point. */
  ghost predicate Holds(w: World, r: Runner) {
    match r.pc
    case Selecting(job) => JobSound(job) && job.proposed.status == Approved && job.proposed.approval == Some(DigestOf(r.approval))
    case Ready(approved) => approved.status == Approved && approved.approval == Some(DigestOf(r.approval))
    case Consuming(job) => JobSound(job) && job.proposed.status == Applying
                           && job.proposed.approval == Some(DigestOf(r.approval)) && r.root in w.intents
    case Consumed(l) => Won(w, r, l)
    case Settling(l, _) => Won(w, r, l)
    case Closing(job) => JobSound(job) && job.proposed.status !in {Approved, Applying, Applied}
    case _ => true
  }

  ghost predicate JobSound(job: Replacing) {
    Perform(job.current, job.action) == Ok(job.proposed) && !job.confirm.Settled?
  }

  ghost predicate Won(w: World, r: Runner, l: Ledger) {
    l in w.history && l.status == Applying && l.approval == Some(DigestOf(r.approval)) && r.root in w.intents
  }

  ghost predicate AllHold(w: World) {
    forall i :: 0 <= i < |w.runners| ==> Holds(w, w.runners[i])
  }

  ghost predicate RootsApart(w: World) {
    forall i, j :: 0 <= i < j < |w.runners| && Past(w.runners[i].pc) && Past(w.runners[j].pc)
                   ==> w.runners[i].root != w.runners[j].root
  }

  /** Each process starts Terraform at most once, and is settling from then on. */
  ghost predicate LogSound(w: World) {
    && (forall k :: 0 <= k < |w.applied| ==> w.applied[k] < |w.runners| && w.runners[w.applied[k]].pc.Settling?)
    && (forall k, m :: 0 <= k < m < |w.applied| ==> w.applied[k] != w.applied[m])
  }

  predicate Reported(w: World, i: nat) {
    i < |w.runners| && w.runners[i].pc.Settling? && w.runners[i].pc.reported
  }

  /** Success was reported only where Terraform ran, and APPLIED is durable only if it was reported. */
  ghost predicate ReportSound(w: World) {
    && (forall i: nat :: Reported(w, i) ==> i in w.applied)
    && ((exists l :: l in w.history && l.status == Applied) ==> exists i: nat :: Reported(w, i))
  }

  /** A request that arrives late is a legal step, and never reports success. */
  ghost predicate LateSound(w: World) {
    forall job :: job in w.late ==> Perform(job.current, job.action) == Ok(job.proposed) && job.proposed.status != Applied
  }

  ghost predicate Inv(w: World) {
    && History(w.history, w.actions) && LateSound(w)
    && AllHold(w) && RootsApart(w) && LogSound(w) && ReportSound(w)
  }

  /** Approval and private root of every process never change. */
  ghost predicate SameRunners(a: World, b: World) {
    && |a.runners| == |b.runners|
    && forall i :: 0 <= i < |a.runners| ==> a.runners[i].approval == b.runners[i].approval && a.runners[i].root == b.runners[i].root
  }

  /** Everything a world keeps when it only grows its history. */
  ghost predicate Grows(w: World, g: World) {
    && History(g.history, g.actions) && Extends(w.history, g.history) && LateSound(g)
    && w.intents <= g.intents
    && forall l :: l in g.history && l.status == Applied ==> l in w.history
  }

  lemma HoldsLater(w: World, g: World, r: Runner)
    requires Holds(w, r) && Extends(w.history, g.history) && w.intents <= g.intents
    ensures Holds(g, r)
  {
    hide Perform;
    if r.pc.Consumed? || r.pc.Settling? {
      ExtendsKeeps(w.history, g.history, r.pc.applying);
    }
  }

  /** A step of a process that has not started, and does not start, its Terraform apply. */
  lemma AllHoldLater(w: World, g: World, who: nat)
    requires AllHold(w) && Extends(w.history, g.history) && w.intents <= g.intents
    requires |g.runners| == |w.runners| && forall i :: 0 <= i < |w.runners| && i != who ==> g.runners[i] == w.runners[i]
    requires who < |g.runners| ==> Holds(g, g.runners[who])
    ensures AllHold(g)
  {
    hide Holds;
    forall i | 0 <= i < |g.runners| ensures Holds(g, g.runners[i]) {
      if i != who { HoldsLater(w, g, w.runners[i]); }
    }
  }

  /** Reports of success are kept when nobody stops settling and no new APPLIED appears. */
  lemma ReportsKept(w: World, g: World)
    requires ReportSound(w) && |g.runners| == |w.runners|
    requires forall i: nat :: Reported(g, i) ==> Reported(w, i) || i in g.applied
    requires forall i: nat :: Reported(w, i) ==> Reported(g, i)
    requires forall l :: l in g.history && l.status == Applied ==> l in w.history || exists i: nat :: Reported(g, i)
    requires forall i :: i in w.applied ==> i in g.applied
    ensures ReportSound(g)
  {
    hide Reported;
    if l :| l in g.history && l.status == Applied {
      if l in w.history {
        var i: nat :| Reported(w, i);
        assert Reported(g, i);
      }
    }
  }

  /** A step of a process that has not started, and does not start, its Terraform apply. */
  lemma Moves(w: World, g: World, who: nat, pc: Pc)
    requires Inv(w) && Grows(w, g) && who < |w.runners|
    requires g.runners == w.runners[who := w.runners[who].(pc := pc)] && g.applied == w.applied
    requires !w.runners[who].pc.Settling? && !pc.Settling? && Holds(g, g.runners[who])
    requires Past(pc) ==> Past(w.runners[who].pc) || w.runners[who].root !in w.intents
    ensures Inv(g)
  {
    hide Perform, History;
    assert RootsApart(g);
    AllHoldLater(w, g, who);
    ReportsKept(w, g);
  }

  /** One call of a confirmed replacement commits at most its proposal, and reports
      success only for a proposal that is durable. */
  lemma CallKeeps(w: World, job: Replacing, e: Event, g: World, job': Replacing)
    requires History(w.history, w.actions) && LateSound(w) && JobSound(job) && (g, job') == Call(w, job, e)
    requires job.proposed.status != Applied
    ensures Grows(w, g) && g == w.(history := g.history, actions := g.actions, late := g.late)
    ensures job' == job.(confirm := job'.confirm)
    ensures job'.confirm.Settled? && job'.confirm.result.Ok? ==>
              job'.confirm.result.value == job.proposed && job.proposed in g.history
  {
    assert |w.history| > 0 && Durable(w) in w.history;
    hide Perform, History;
    if e.Write? && job.confirm.Writing? && e.delivered && Durable(w) == job.current {
      HistoryGrows(w.history, w.actions, job.action, job.proposed);
    }
  }

  lemma ProposalSound(l: Ledger, a: Option<Action>)
    ensures var job := Propose(l, a); job.Some? ==>
              && JobSound(job.value) && job.value.current == l
              && (a.value.Move? ==> job.value.proposed.status == a.value.next)
  {
  }

  lemma ApprovalRecorded(l: Ledger, a: Approval, at: int)
    ensures var job := Propose(l, Selection(l, a, at)); job.Some? ==>
              job.value.proposed.status == Approved && job.value.proposed.approval == Some(DigestOf(a))
  {
  }

  lemma ConsumptionKeepsApproval(l: Ledger, at: int)
    ensures var job := Propose(l, Some(Move(Applying, at, NO_SUPPORT))); job.Some? ==>
              job.value.proposed.status == Applying && job.value.proposed.approval == l.approval
  {
  }

  lemma ResumptionStatus(l: Ledger, at: int, s: Support)
    ensures var job := Propose(l, Resumption(l, at, s)); job.Some? ==>
              job.value.proposed.status !in {Approved, Applying, Applied}
  {
  }

  lemma StepInv(w: World, s: Step)
    requires Inv(w)
    ensures Inv(Next(w, s)) && SameRunners(w, Next(w, s))
  {
    match s
    case Elsewhere(action) => BookkeepingInv(w, action);
    case Arrival(k) => ArrivalInv(w, k);
    case By(who, e) =>
      if who < |w.runners| {
        match w.runners[who].pc
        case Start => StartInv(w, who, e);
        case Admitted => AdmittedInv(w, who, e);
        case Selecting(_) => SelectingInv(w, who, e);
        case Ready(_) => ReadyInv(w, who, e);
        case Consuming(_) => ConsumingInv(w, who, e);
        case Consumed(_) => ConsumedInv(w, who, e);
        case Settling(_, _) => SettlingInv(w, who, e);
        case Closing(_) => ClosingInv(w, who, e);
        case Stopped =>
      }
  }

  /** A legal step is committed, to APPLIED only if this process has reported success. */
  lemma CommittedInv(w: World, action: Action, n: Ledger, who: nat)
    requires Inv(w) && |w.history| > 0 && Perform(Durable(w), action) == Ok(n) && (n.status == Applied ==> Reported(w, who))
    ensures Inv(Commit(w, n, action)) && SameRunners(w, Commit(w, n, action))
  {
    hide Perform, History, Holds, JobSound;
    var g := Commit(w, n, action);
    HistoryGrows(w.history, w.actions, action, n);
    assert Extends(w.history, g.history);
    AllHoldLater(w, g, |w.runners|);
    if n.status == Applied { assert Reported(g, who); }
    ReportsKept(w, g);
    assert RootsApart(g) && LogSound(g) && LateSound(g);
  }

  lemma BookkeepingInv(w: World, action: Action)
    requires Inv(w)
    ensures Inv(Next(w, Elsewhere(action))) && SameRunners(w, Next(w, Elsewhere(action)))
  {
    hide Perform, History, Inv, Bookkeeping, SameRunners;
    Lively(w);
    SameReflexive(w);
    if Bookkeeping(action) && Perform(Durable(w), action).Ok? {
      BookkeepingStatus(Durable(w), action);
      CommittedInv(w, action, Perform(Durable(w), action).value, 0);
    }
  }

  lemma ArrivalInv(w: World, k: nat)
    requires Inv(w)
    ensures Inv(Next(w, Arrival(k))) && SameRunners(w, Next(w, Arrival(k)))
  {
    hide Perform, History, Inv, SameRunners;
    Lively(w);
    SameReflexive(w);
    if k < |w.late| && Durable(w) == w.late[k].current {
      LateIsLegal(w, k);
      CommittedInv(w, w.late[k].action, w.late[k].proposed, 0);
    }
  }

  lemma Lively(w: World)
    requires Inv(w)
    ensures |w.history| > 0 && History(w.history, w.actions)
  {
  }

  lemma LateIsLegal(w: World, k: nat)
    requires Inv(w) && k < |w.late|
    ensures Perform(w.late[k].current, w.late[k].action) == Ok(w.late[k].proposed) && w.late[k].proposed.status != Applied
  {
    assert w.late[k] in w.late;
  }

  lemma BookkeepingStatus(l: Ledger, action: Action)
    requires Bookkeeping(action) && Perform(l, action).Ok?
    ensures Perform(l, action).value.status !in {Approved, Applying, Applied}
  {
  }

  lemma StartInv(w: World, who: nat, e: Event)
    requires Inv(w) && who < |w.runners| && w.runners[who].pc == Start
    ensures Inv(Next(w, By(who, e))) && SameRunners(w, Next(w, By(who, e)))
  {
    hide Perform, History, Bookkeeping;
    Known(w, who);
    var g := Next(w, By(who, e));
    if g != w {
      ProposalSound(Durable(w), Resumption(Durable(w), e.at, e.support));
      ResumptionStatus(Durable(w), e.at, e.support);
      Moves(w, g, who, g.runners[who].pc);
    }
  }

  lemma AdmittedInv(w: World, who: nat, e: Event)
    requires Inv(w) && who < |w.runners| && w.runners[who].pc == Admitted
    ensures Inv(Next(w, By(who, e))) && SameRunners(w, Next(w, By(who, e)))
  {
    hide Perform, History, Bookkeeping;
    Known(w, who);
    var g := Next(w, By(who, e));
    if g != w {
      ProposalSound(Durable(w), Selection(Durable(w), w.runners[who].approval, e.at));
      ApprovalRecorded(Durable(w), w.runners[who].approval, e.at);
      Moves(w, g, who, g.runners[who].pc);
    }
  }

  lemma ReadyInv(w: World, who: nat, e: Event)
    requires Inv(w) && who < |w.runners| && w.runners[who].pc.Ready?
    ensures Inv(Next(w, By(who, e))) && SameRunners(w, Next(w, By(who, e)))
  {
    hide Perform, History, Bookkeeping;
    Known(w, who);
    var g := Next(w, By(who, e));
    if g != w {
      var approved := w.runners[who].pc.approved;
      if e.Intend? {
        ProposalSound(approved, Some(Move(Applying, e.at, NO_SUPPORT)));
        ConsumptionKeepsApproval(approved, e.at);
      }
      Moves(w, g, who, g.runners[who].pc);
    }
  }

  lemma Known(w: World, who: nat)
    requires Inv(w) && who < |w.runners|
    ensures |w.history| > 0 && History(w.history, w.actions) && LateSound(w) && Holds(w, w.runners[who])
  {
  }

  lemma SameAfter(w: World, g: World, who: nat, pc: Pc)
    requires who < |w.runners| && g.runners == w.runners[who := w.runners[who].(pc := pc)]
    ensures SameRunners(w, g)
  {
  }

  lemma SelectingInv(w: World, who: nat, e: Event)
    requires Inv(w) && who < |w.runners| && w.runners[who].pc.Selecting?
    ensures Inv(Next(w, By(who, e))) && SameRunners(w, Next(w, By(who, e)))
  {
    hide Perform, History, Reply, Call, Inv, SameRunners;
    Known(w, who);
    var g := Next(w, By(who, e));
    if e.Fail? {
      Moves(w, g, who, Stopped);
      SameAfter(w, g, who, Stopped);
    } else {
      var (w', job') := Call(w, w.runners[who].pc.job, e);
      CallKeeps(w, w.runners[who].pc.job, e, w', job');
      Moves(w, g, who, g.runners[who].pc);
      SameAfter(w, g, who, g.runners[who].pc);
    }
  }

  lemma ConsumingInv(w: World, who: nat, e: Event)
    requires Inv(w) && who < |w.runners| && w.runners[who].pc.Consuming?
    ensures Inv(Next(w, By(who, e))) && SameRunners(w, Next(w, By(who, e)))
  {
    hide Perform, History, Reply, Call, Inv, SameRunners;
    Known(w, who);
    var g := Next(w, By(who, e));
    if e.Fail? {
      Moves(w, g, who, Stopped);
      SameAfter(w, g, who, Stopped);
    } else {
      var (w', job') := Call(w, w.runners[who].pc.job, e);
      CallKeeps(w, w.runners[who].pc.job, e, w', job');
      Moves(w, g, who, g.runners[who].pc);
      SameAfter(w, g, who, g.runners[who].pc);
    }
  }

  lemma ClosingInv(w: World, who: nat, e: Event)
    requires Inv(w) && who < |w.runners| && w.runners[who].pc.Closing?
    ensures Inv(Next(w, By(who, e))) && SameRunners(w, Next(w, By(who, e)))
  {
    hide Perform, History, Reply, Call, Inv, SameRunners;
    Known(w, who);
    var g := Next(w, By(who, e));
    if e.Fail? {
      Moves(w, g, who, Stopped);
      SameAfter(w, g, who, Stopped);
    } else {
      var (w', job') := Call(w, w.runners[who].pc.job, e);
      CallKeeps(w, w.runners[who].pc.job, e, w', job');
      Moves(w, g, who, g.runners[who].pc);
      SameAfter(w, g, who, g.runners[who].pc);
    }
  }

  lemma ConsumedInv(w: World, who: nat, e: Event)
    requires Inv(w) && who < |w.runners| && w.runners[who].pc.Consumed?
    ensures Inv(Next(w, By(who, e))) && SameRunners(w, Next(w, By(who, e)))
  {
    hide Perform, History, Call, SameRunners;
    Known(w, who);
    var g := Next(w, By(who, e));
    if g != w {
      AllHoldLater(w, g, who);
      SameAfter(w, g, who, g.runners[who].pc);
      assert forall k :: 0 <= k < |w.applied| ==> g.applied[k] == w.applied[k];
      if e.Terraform? { assert g.applied[|w.applied|] == who; }
      ReportsKept(w, g);
    } else {
      SameReflexive(w);
    }
  }

  lemma MoveLeadsTo(l: Ledger, a: Action, n: Ledger)
    requires a.Move? && Perform(l, a) == Ok(n)
    ensures n.status == a.next
  {
  }

  lemma SettlingInv(w: World, who: nat, e: Event)
    requires Inv(w) && who < |w.runners| && w.runners[who].pc.Settling?
    ensures Inv(Next(w, By(who, e))) && SameRunners(w, Next(w, By(who, e)))
  {
    hide Perform, History, Call, Inv, SameRunners;
    Lively(w);
    SameReflexive(w);
    var g := Next(w, By(who, e));
    if g != w {
      var action := if e.next == Applied then Move(Applied, e.at, NO_SUPPORT.(code := Some(ApplySucceeded)))
                    else Move(Uncertain, e.at, NO_SUPPORT.(code := Some(ResponseLost)));
      var n := Perform(w.runners[who].pc.applying, action).value;
      MoveLeadsTo(w.runners[who].pc.applying, action, n);
      CommittedInv(w, action, n, who);
    }
  }

  lemma {:induction false} RunInv(w: World, steps: seq<Step>)
    requires |w.history| > 0 && Inv(w)
    ensures Inv(Run(w, steps)) && SameRunners(w, Run(w, steps))
  {
    hide Inv, Next, SameRunners;
    if steps != [] {
      RunInv(w, steps[..|steps| - 1]);
      StepInv(Run(w, steps[..|steps| - 1]), steps[|steps| - 1]);
      SameTransitive(w, Run(w, steps[..|steps| - 1]), Run(w, steps));
    } else {
      SameReflexive(w);
    }
  }

  lemma SameReflexive(w: World)
    ensures SameRunners(w, w)
  {
  }

  lemma SameTransitive(a: World, b: World, c: World)
    requires SameRunners(a, b) && SameRunners(b, c)
    ensures SameRunners(a, c)
  {
  }

  // ---------------------------------------------------------------- at most once

  /** Two processes with the same approval share a private root: an approval belongs to
      one workflow run, and a workflow run owns one root. */
  ghost predicate ApprovalDeterminesRoot(runners: seq<Runner>) {
    forall i, j :: 0 <= i < |runners| && 0 <= j < |runners| && runners[i].approval == runners[j].approval
                   ==> runners[i].root == runners[j].root
  }

  lemma TwoAppliesShareAnApproval(w: World, k: nat, m: nat)
    requires Inv(w) && k < m < |w.applied|
    ensures w.runners[w.applied[k]].approval == w.runners[w.applied[m]].approval
    ensures w.runners[w.applied[k]].root != w.runners[w.applied[m]].root
  {
    hide Perform;
    var a, b := w.runners[w.applied[k]], w.runners[w.applied[m]];
    assert Won(w, a, a.pc.applying) && Won(w, b, b.pc.applying);
    var i :| 0 <= i < |w.history| && w.history[i] == a.pc.applying;
    var j :| 0 <= j < |w.history| && w.history[j] == b.pc.applying;
    OneAttempt(w.history, w.actions, i, j);
    assert w.applied[k] < w.applied[m] || w.applied[m] < w.applied[k];
  }

  /** With that separation, over every interleaving the apply is started at most once;
      whoever is told APPLIED was committed can rely on Terraform having reported success. */
  lemma AtMostOneApply(plan: PlanRecord, at: int, runners: seq<Runner>, steps: seq<Step>)
    requires forall r :: r in runners ==> r.pc == Start
    requires ApprovalDeterminesRoot(runners)
    ensures |Run(Initial(plan, at, runners), steps).applied| <= 1
  {
    var w0, w := Initial(plan, at, runners), Run(Initial(plan, at, runners), steps);
    InitialInv(plan, at, runners);
    RunInv(w0, steps);
    if |w.applied| > 1 {
      var i, j := w.applied[0], w.applied[1];
      assert w.runners[i].approval == runners[i].approval && w.runners[j].approval == runners[j].approval;
      assert w.runners[i].root == runners[i].root && w.runners[j].root == runners[j].root;
      TwoAppliesShareAnApproval(w, 0, 1);
    }
  }

  lemma InitialInv(plan: PlanRecord, at: int, runners: seq<Runner>)
    requires forall r :: r in runners ==> r.pc == Start
    ensures Inv(Initial(plan, at, runners))
  {
    assert Starts(InitialLedger(plan, at));
    assert forall l :: l in Initial(plan, at, runners).history ==> l.status == Planned;
  }

  // ---------------------------------------------------------------- what the steps tell

  /** At step k process i runs Terraform over the attempt it holds, and is told this. */
  ghost predicate RanAt(w: World, steps: seq<Step>, k: nat, i: nat, reported: bool)
    requires |w.history| > 0
  {
    && k < |steps| && steps[k] == By(i, Terraform(reported))
    && var before := Run(w, steps[..k]); i < |before.runners| && before.runners[i].pc.Consumed?
  }

  /** At step k process i writes its intent, the first in its private root, while its
      approval is current. */
  ghost predicate IntendedAt(w: World, steps: seq<Step>, k: nat, i: nat, at: int)
    requires |w.history| > 0
  {
    && k < |steps| && steps[k] == By(i, Intend(at))
    && var before := Run(w, steps[..k]);
       i < |before.runners| && before.runners[i].root !in before.intents && ApprovalCurrent(before.runners[i].approval, at)
  }

  ghost predicate Ran(w: World, steps: seq<Step>, i: nat, reported: bool)
    requires |w.history| > 0
  {
    exists k: nat :: RanAt(w, steps, k, i, reported)
  }

  ghost predicate Intended(w: World, steps: seq<Step>, i: nat)
    requires |w.history| > 0
  {
    exists k: nat, at: int :: IntendedAt(w, steps, k, i, at)
  }

  /** Some process wrote its intent at the time of this ledger, under its approval. */
  ghost predicate HasIntent(w: World, steps: seq<Step>, l: Ledger)
    requires |w.history| > 0
  {
    exists k: nat, i: nat, at: int ::
      IntendedAt(w, steps, k, i, at) && i < |w.runners| && l.approval == Some(DigestOf(w.runners[i].approval)) && l.updatedAt == ToSecond(at)
  }

  lemma StepsBefore(w: World, steps: seq<Step>, k: nat, i: nat, b: bool, at: int)
    requires |w.history| > 0 && steps != [] && k < |steps| - 1
    ensures var front := steps[..|steps| - 1];
            && (RanAt(w, front, k, i, b) <==> RanAt(w, steps, k, i, b))
            && (IntendedAt(w, front, k, i, at) <==> IntendedAt(w, steps, k, i, at))
  {
    assert steps[..|steps| - 1][..k] == steps[..k];
  }

  lemma RanEarlier(w: World, steps: seq<Step>, i: nat, b: bool)
    requires |w.history| > 0 && steps != []
    ensures Ran(w, steps[..|steps| - 1], i, b) ==> Ran(w, steps, i, b)
    ensures Intended(w, steps[..|steps| - 1], i) ==> Intended(w, steps, i)
  {
    hide Run, RanAt, IntendedAt;
    var front := steps[..|steps| - 1];
    if Ran(w, front, i, b) {
      var k: nat :| RanAt(w, front, k, i, b);
      Within(w, front, k, i, b, 0);
      StepsBefore(w, steps, k, i, b, 0);
    }
    if Intended(w, front, i) {
      var k: nat, at: int :| IntendedAt(w, front, k, i, at);
      Within(w, front, k, i, b, at);
      StepsBefore(w, steps, k, i, b, at);
    }
  }

  lemma Within(w: World, steps: seq<Step>, k: nat, i: nat, b: bool, at: int)
    requires |w.history| > 0
    ensures RanAt(w, steps, k, i, b) || IntendedAt(w, steps, k, i, at) ==> k < |steps|
  {
  }

  lemma RanLast(w: World, steps: seq<Step>, i: nat, b: bool)
    requires |w.history| > 0 && steps != []
    ensures var before := Run(w, steps[..|steps| - 1]);
            Ran(w, steps, i, b) <==>
              || Ran(w, steps[..|steps| - 1], i, b)
              || (steps[|steps| - 1] == By(i, Terraform(b)) && i < |before.runners| && before.runners[i].pc.Consumed?)
  {
    hide Run;
    var n := |steps| - 1;
    RanEarlier(w, steps, i, b);
    if Ran(w, steps, i, b) {
      var k: nat :| RanAt(w, steps, k, i, b);
      if k < n {
        StepsBefore(w, steps, k, i, b, 0);
        assert Ran(w, steps[..n], i, b);
      }
    } else {
      assert !RanAt(w, steps, n, i, b);
    }
  }

  lemma EarlierIntent(w: World, steps: seq<Step>, l: Ledger)
    requires |w.history| > 0 && steps != [] && HasIntent(w, steps[..|steps| - 1], l)
    ensures HasIntent(w, steps, l)
  {
    var k: nat, i: nat, at: int :|
      IntendedAt(w, steps[..|steps| - 1], k, i, at) && i < |w.runners|
      && l.approval == Some(DigestOf(w.runners[i].approval)) && l.updatedAt == ToSecond(at);
    StepsBefore(w, steps, k, i, true, at);
  }

  /** One step: who starts Terraform, and who records a success. */
  lemma StepTells(w: World, s: Step, i: nat)
    requires |w.history| > 0 && i < |w.runners|
    ensures var g := Next(w, s);
            && |g.runners| == |w.runners|
            && (i in g.applied <==> i in w.applied || (s.By? && s.who == i && s.event.Terraform? && w.runners[i].pc.Consumed?))
            && (Reported(g, i) ==> Reported(w, i) || (s == By(i, Terraform(true)) && w.runners[i].pc.Consumed?))
            && (Past(g.runners[i].pc) ==>
                  || Past(w.runners[i].pc)
                  || (s.By? && s.who == i && s.event.Intend? && w.runners[i].root !in w.intents
                      && ApprovalCurrent(w.runners[i].approval, s.event.at)))
  {
    hide Perform, ApprovalCurrent, Resumption, Selection, Call, Propose;
    if s.By? && s.who < |w.runners| {
      var pc := w.runners[s.who].pc;
      if pc.Selecting? || pc.Consuming? || pc.Closing? { CallKeepsRest(w, pc.job, s.event); }
    }
  }

  lemma CallKeepsRest(w: World, job: Replacing, e: Event)
    requires |w.history| > 0
    ensures var g := Call(w, job, e).0; g.runners == w.runners && g.applied == w.applied && g.intents == w.intents
  {
  }

  /** Terraform runs exactly in the steps of the processes that are listed, a success is
      recorded only if Terraform reported it, and who is past its intent has written one. */
  lemma {:induction false} StepsTell(w: World, steps: seq<Step>, i: nat)
    requires |w.history| > 0 && i < |w.runners| && w.runners[i].pc == Start && i !in w.applied
    ensures var g := Run(w, steps);
            && |g.runners| == |w.runners|
            && (i in g.applied <==> Ran(w, steps, i, true) || Ran(w, steps, i, false))
            && (Reported(g, i) ==> Ran(w, steps, i, true))
            && (Past(g.runners[i].pc) ==> Intended(w, steps, i))
  {
    hide Next, ApprovalCurrent, Ran, Intended;
    NoneYet(w, i);
    if steps != [] {
      var front, n := steps[..|steps| - 1], |steps| - 1;
      StepsTell(w, front, i);
      StepTells(Run(w, front), steps[n], i);
      RanLast(w, steps, i, true);
      RanLast(w, steps, i, false);
      RanEarlier(w, steps, i, true);
      if Past(Run(w, steps).runners[i].pc) && !Past(Run(w, front).runners[i].pc) {
        IntendedLast(w, steps, i, steps[n].event.at);
      }
    }
  }

  lemma IntendedLast(w: World, steps: seq<Step>, i: nat, at: int)
    requires |w.history| > 0 && steps != [] && IntendedAt(w, steps, |steps| - 1, i, at)
    ensures Intended(w, steps, i)
  {
  }

  lemma NoneYet(w: World, i: nat)
    requires |w.history| > 0
    ensures !Ran(w, [], i, true) && !Ran(w, [], i, false)
  {
  }

  predicate ConsumesIn(g: World, i: nat, l: Ledger) {
    i < |g.runners| && g.runners[i].pc.Consuming? && g.runners[i].pc.job.proposed == l
  }

  /** A ledger that consumes the attempt is committed, on its way, or proposed. */
  ghost predicate Consumes(g: World, l: Ledger) {
    && l.status == Applying
    && (l in g.history || (exists job :: job in g.late && job.proposed == l) || (exists i: nat :: ConsumesIn(g, i, l)))
  }

  ghost predicate Intentional(w: World, steps: seq<Step>, g: World)
    requires |w.history| > 0
  {
    forall l :: Consumes(g, l) ==> HasIntent(w, steps, l)
  }

  /** In this step a process writes its intent and proposes to consume the attempt. */
  predicate Proposes(w: World, s: Step, l: Ledger) {
    && s.By? && s.who < |w.runners| && s.event.Intend?
    && w.runners[s.who].root !in w.intents && ApprovalCurrent(w.runners[s.who].approval, s.event.at)
    && l.approval == Some(DigestOf(w.runners[s.who].approval)) && l.updatedAt == ToSecond(s.event.at)
  }

  lemma StepSource(w: World, s: Step, l: Ledger)
    requires Inv(w) && Consumes(Next(w, s), l)
    ensures Consumes(w, l) || Proposes(w, s, l)
  {
    hide Perform, Inv, Proposes, Bookkeeping;
    Lively(w);
    match s {
      case Elsewhere(action) =>
        if Perform(Durable(w), action).Ok? && Bookkeeping(action) { BookkeepingStatus(Durable(w), action); }
        SameRest(w, Next(w, s), l);
      case Arrival(k) => SameRest(w, Next(w, s), l);
      case By(who, e) => if who < |w.runners| { ProcessSource(w, who, e, l); }
    }
  }

  lemma SameRest(w: World, g: World, l: Ledger)
    requires g.late == w.late && g.runners == w.runners && Consumes(g, l)
    requires l in g.history ==> l in w.history || exists job :: job in w.late && job.proposed == l
    ensures Consumes(w, l)
  {
    if i: nat :| ConsumesIn(g, i, l) {
      assert ConsumesIn(w, i, l);
    }
  }

  lemma ProcessSource(w: World, who: nat, e: Event, l: Ledger)
    requires Inv(w) && who < |w.runners| && Consumes(Next(w, By(who, e)), l)
    ensures Consumes(w, l) || Proposes(w, By(who, e), l)
  {
    hide Perform, History, Inv, LateSound, ApprovalCurrent, Resumption, Selection, Call, Propose;
    Known(w, who);
    var g := Next(w, By(who, e));
    if i: nat :| ConsumesIn(g, i, l) && i != who {
      OtherConsumes(w, who, e, i, l);
    } else {
      OwnSource(w, who, e, l);
    }
  }

  lemma OtherConsumes(w: World, who: nat, e: Event, i: nat, l: Ledger)
    requires |w.history| > 0 && who < |w.runners| && ConsumesIn(Next(w, By(who, e)), i, l) && i != who && l.status == Applying
    ensures Consumes(w, l)
  {
    hide Perform, ApprovalCurrent, Resumption, Selection, Call, Propose;
    var pc := w.runners[who].pc;
    if pc.Selecting? || pc.Consuming? || pc.Closing? { CallKeepsRest(w, pc.job, e); }
    assert ConsumesIn(w, i, l);
  }

  /** What the process of this step adds itself. */
  lemma OwnSource(w: World, who: nat, e: Event, l: Ledger)
    requires |w.history| > 0 && who < |w.runners| && Holds(w, w.runners[who]) && l.status == Applying
    requires var g := Next(w, By(who, e));
             l in g.history || (exists job :: job in g.late && job.proposed == l) || ConsumesIn(g, who, l)
    ensures Consumes(w, l) || Proposes(w, By(who, e), l)
  {
    hide Perform, ApprovalCurrent, Resumption, Selection, Call, Propose;
    var pc := w.runners[who].pc;
    match pc
    case Selecting(job) => CallAdds(w, job, e, l);
    case Consuming(job) => CallAdds(w, job, e, l); assert job.proposed == l ==> ConsumesIn(w, who, l);
    case Closing(job) => CallAdds(w, job, e, l);
    case Ready(approved) => if e.Intend? { IntentProposes(approved, e.at); }
    case Settling(applying, reported) =>
      if e.Settle? {
        SettledStatus(applying, Move(Applied, e.at, NO_SUPPORT.(code := Some(ApplySucceeded))));
        SettledStatus(applying, Move(Uncertain, e.at, NO_SUPPORT.(code := Some(ResponseLost))));
      }
    case _ =>
  }

  lemma SettledStatus(l: Ledger, a: Action)
    ensures a.Move? && Perform(l, a).Ok? ==> Perform(l, a).value.status == a.next
  {
  }

  lemma IntentProposes(l: Ledger, at: int)
    ensures var job := Propose(l, Some(Move(Applying, at, NO_SUPPORT))); job.Some? ==>
              && job.value.proposed.approval == l.approval && job.value.proposed.updatedAt == ToSecond(at)
  {
  }

  lemma CallAdds(w: World, job: Replacing, e: Event, l: Ledger)
    requires |w.history| > 0
    ensures var (g, job') := Call(w, job, e);
            && g.runners == w.runners && job'.proposed == job.proposed
            && (l in g.history ==> l in w.history || l == job.proposed)
            && ((exists j :: j in g.late && j.proposed == l) ==> l == job.proposed || exists j :: j in w.late && j.proposed == l)
  {
  }

  /** Over every interleaving, whoever consumed the attempt wrote its intent before. */
  lemma {:induction false} AllIntentional(plan: PlanRecord, at: int, runners: seq<Runner>, steps: seq<Step>)
    requires forall r :: r in runners ==> r.pc == Start
    ensures var w := Initial(plan, at, runners); Intentional(w, steps, Run(w, steps))
  {
    hide Next, Inv, HasIntent, History, ApprovalCurrent, Consumes, Initial;
    InitialInv(plan, at, runners);
    Lively(Initial(plan, at, runners));
    var w := Initial(plan, at, runners);
    if steps != [] {
      var front, s := steps[..|steps| - 1], steps[|steps| - 1];
      AllIntentional(plan, at, runners, front);
      RunInv(w, front);
      forall l | Consumes(Run(w, steps), l) ensures HasIntent(w, steps, l) {
        StepSource(Run(w, front), s, l);
        SourceHasIntent(w, steps, l);
      }
    } else {
      forall l ensures !Consumes(Run(w, steps), l) {
        NobodyConsumes(plan, at, runners, l);
      }
    }
  }

  lemma NobodyConsumes(plan: PlanRecord, at: int, runners: seq<Runner>, l: Ledger)
    requires forall r :: r in runners ==> r.pc == Start
    ensures !Consumes(Initial(plan, at, runners), l)
  {
    forall i: nat ensures !ConsumesIn(Initial(plan, at, runners), i, l) {
      if i < |runners| { assert runners[i] in runners; }
    }
  }

  lemma SourceHasIntent(w: World, steps: seq<Step>, l: Ledger)
    requires |w.history| > 0 && steps != []
    requires var front, before := steps[..|steps| - 1], Run(w, steps[..|steps| - 1]);
             && SameRunners(w, before) && Intentional(w, front, before)
             && (Consumes(before, l) || Proposes(before, steps[|steps| - 1], l))
    ensures HasIntent(w, steps, l)
  {
    hide Run, ApprovalCurrent, Consumes;
    var front, s := steps[..|steps| - 1], steps[|steps| - 1];
    if Consumes(Run(w, front), l) {
      EarlierIntent(w, steps, l);
    } else {
      assert IntendedAt(w, steps, |steps| - 1, s.who, s.event.at);
    }
  }

  /** Over every interleaving: APPLIED is committed only if some process ran Terraform over
      the attempt and was told that the apply succeeded, and then UNCERTAIN never is. */
  lemma CommittedOutcomeIsSound(plan: PlanRecord, at: int, runners: seq<Runner>, steps: seq<Step>, k: nat)
    requires forall r :: r in runners ==> r.pc == Start
    requires var w := Run(Initial(plan, at, runners), steps); k < |w.history| && w.history[k].status == Applied
    ensures exists i: nat, m: nat :: i < |runners| && RanAt(Initial(plan, at, runners), steps, m, i, true)
    ensures forall m :: 0 <= m < |Run(Initial(plan, at, runners), steps).history| ==>
              Run(Initial(plan, at, runners), steps).history[m].status !in {Uncertain, ReconciledApplied, Failed}
  {
    hide Perform;
    var w := Run(Initial(plan, at, runners), steps);
    InitialInv(plan, at, runners);
    RunInv(Initial(plan, at, runners), steps);
    assert w.history[k] in w.history;
    var i: nat :| Reported(w, i);
    assert runners[i] in runners;
    StepsTell(Initial(plan, at, runners), steps, i);
    forall m | 0 <= m < |w.history| ensures w.history[m].status !in {Uncertain, ReconciledApplied, Failed} {
      OutcomesExclude(w.history, w.actions, k, m);
    }
  }

  /** The processes that are listed are exactly those that ran Terraform in some step. Each
      wrote the intent of its private root before, while its approval was current, and an
      APPLYING ledger under that approval was durable when it ran. */
  lemma EffectsHaveIntents(plan: PlanRecord, at: int, runners: seq<Runner>, steps: seq<Step>, i: nat)
    requires (forall r :: r in runners ==> r.pc == Start) && i < |runners|
    ensures var w := Initial(plan, at, runners);
            && (i in Run(w, steps).applied <==> exists m: nat, b :: RanAt(w, steps, m, i, b))
            && (forall m: nat, b :: RanAt(w, steps, m, i, b) ==>
                  && (exists k: nat, t: int :: k < m && IntendedAt(w, steps, k, i, t))
                  && (exists l :: l in Run(w, steps[..m]).history && l.status == Applying && l.approval == Some(DigestOf(runners[i].approval))))
  {
    hide Next;
    var w := Initial(plan, at, runners);
    assert runners[i] in runners;
    StepsTell(w, steps, i);
    forall m: nat, b | RanAt(w, steps, m, i, b)
      ensures exists k: nat, t: int :: k < m && IntendedAt(w, steps, k, i, t)
      ensures exists l :: l in Run(w, steps[..m]).history && l.status == Applying && l.approval == Some(DigestOf(runners[i].approval))
    {
      IntentBefore(plan, at, runners, steps, m, i);
    }
  }

  lemma IntentBefore(plan: PlanRecord, at: int, runners: seq<Runner>, steps: seq<Step>, m: nat, i: nat)
    requires (forall r :: r in runners ==> r.pc == Start) && i < |runners| && m <= |steps|
    requires var g := Run(Initial(plan, at, runners), steps[..m]); i < |g.runners| && g.runners[i].pc.Consumed?
    ensures exists k: nat, t: int :: k < m && IntendedAt(Initial(plan, at, runners), steps, k, i, t)
    ensures exists l :: l in Run(Initial(plan, at, runners), steps[..m]).history && l.status == Applying
                        && l.approval == Some(DigestOf(runners[i].approval))
  {
    hide Next, Perform, ApprovalCurrent, History;
    var w, early := Initial(plan, at, runners), steps[..m];
    assert runners[i] in runners;
    StepsTell(w, early, i);
    InitialInv(plan, at, runners);
    RunInv(w, early);
    Known(Run(w, early), i);
    var k: nat, t: int :| IntendedAt(w, early, k, i, t);
    assert early[..k] == steps[..k];
    assert IntendedAt(w, steps, k, i, t);
    assert Run(w, early).runners[i].pc.applying in Run(w, early).history;
  }

  /** The one attempt of a history was consumed at a time when some process, whose approval
      it carries and was current then, had just written the first intent of its root. */
  lemma AttemptHasIntent(plan: PlanRecord, at: int, runners: seq<Runner>, steps: seq<Step>, k: nat)
    requires forall r :: r in runners ==> r.pc == Start
    requires var w := Run(Initial(plan, at, runners), steps); k < |w.history| && w.history[k].status == Applying
    ensures var w := Initial(plan, at, runners);
            exists m: nat, i: nat, t: int ::
              && IntendedAt(w, steps, m, i, t) && i < |runners|
              && Run(w, steps).history[k].approval == Some(DigestOf(runners[i].approval)) && Run(w, steps).history[k].updatedAt == ToSecond(t)
  {
    hide Next, Run;
    AllIntentional(plan, at, runners, steps);
    var g := Run(Initial(plan, at, runners), steps);
    assert g.history[k] in g.history;
    assert Consumes(g, g.history[k]);
  }

  // ---------------------------------------------------------------- the separation is needed

  lemma RunMore(w: World, steps: seq<Step>, s: Step)
    requires |w.history| > 0
    ensures Run(w, steps + [s]) == Next(Run(w, steps), s)
  {
    assert (steps + [s])[..|steps|] == steps;
  }

  ghost function RunOf(w: World, steps: seq<Step>, s: Step): (r: seq<Step>)
    requires |w.history| > 0
    ensures Run(w, r) == Next(Run(w, steps), s)
  {
    RunMore(w, steps, s);
    steps + [s]
  }

  lemma FirstApproval(l: Ledger, a: Approval, t: int)
    requires l.status == Planned && l.attempts == 0 && ValidDocument(l) && ApprovalFits(l, a, t)
    ensures var n := Perform(l, Move(Approved, t, NO_SUPPORT.(approval := Some(a))));
            && n.Ok? && n.value != l && n.value.status == Approved && n.value.attempts == 0 && ValidDocument(n.value)
            && n.value.approval == Some(DigestOf(a))
  {
    assert Perform(l, Move(Approved, t, NO_SUPPORT.(approval := Some(a)))).value.version == l.version + 1;
  }

  /** One process selects its approval over a PLANNED ledger, everything answered. */
  lemma SelectsFirst(w: World, i: nat, t: int) returns (steps: seq<Step>)
    requires |w.history| > 0 && i < |w.runners| && w.runners[i].pc == Admitted
    requires Durable(w).status == Planned && Durable(w).attempts == 0 && ValidDocument(Durable(w))
    requires ApprovalFits(Durable(w), w.runners[i].approval, t)
    ensures Run(w, steps) == (var l1 := Perform(Durable(w), Move(Approved, t, NO_SUPPORT.(approval := Some(w.runners[i].approval)))).value;
                              At(Commit(w, l1, Move(Approved, t, NO_SUPPORT.(approval := Some(w.runners[i].approval)))), i, Ready(l1)))
  {
    var action := Move(Approved, t, NO_SUPPORT.(approval := Some(w.runners[i].approval)));
    hide Perform, ApprovalFits, ValidDocument, Run, Next;
    FirstApproval(Durable(w), w.runners[i].approval, t);
    var l0, l1 := Durable(w), Perform(Durable(w), action).value;
    RunNone(w);
    Chooses(w, i, t, l1, action);
    Writes(At(w, i, Selecting(Replacing(l0, l1, action, Writing(0)))), i, l0, l1, action);
    ReadsOwn(At(Commit(w, l1, action), i, Selecting(Replacing(l0, l1, action, Reading(0, 0, true)))), i, l0, l1, action);
    steps := RunOf(w, [], By(i, Choose(true, t)));
    steps := RunOf(w, steps, By(i, Write(true, true)));
    steps := RunOf(w, steps, By(i, Read(true)));
  }

  lemma Chooses(w: World, i: nat, t: int, l1: Ledger, action: Action)
    requires |w.history| > 0 && i < |w.runners| && w.runners[i].pc == Admitted && Durable(w).status == Planned
    requires action == Move(Approved, t, NO_SUPPORT.(approval := Some(w.runners[i].approval)))
    requires ApprovalFits(Durable(w), w.runners[i].approval, t) && Perform(Durable(w), action) == Ok(l1) && l1 != Durable(w)
    ensures Next(w, By(i, Choose(true, t))) == At(w, i, Selecting(Replacing(Durable(w), l1, action, Writing(0))))
  {
    hide Perform, ApprovalFits;
  }

  lemma Writes(w: World, i: nat, l0: Ledger, l1: Ledger, action: Action)
    requires |w.history| > 0 && i < |w.runners| && Durable(w) == l0
    requires w.runners[i].pc == Selecting(Replacing(l0, l1, action, Writing(0)))
    ensures Next(w, By(i, Write(true, true))) == At(Commit(w, l1, action), i, Selecting(Replacing(l0, l1, action, Reading(0, 0, true))))
  {
    hide Perform;
  }

  lemma ReadsOwn(w: World, i: nat, l0: Ledger, l1: Ledger, action: Action)
    requires |w.history| > 0 && i < |w.runners| && Durable(w) == l1 != l0
    requires w.runners[i].pc == Selecting(Replacing(l0, l1, action, Reading(0, 0, true)))
    ensures Next(w, By(i, Read(true))) == At(w, i, Ready(l1))
  {
    hide Perform;
  }

  lemma {:induction false} RunConcat(w: World, a: seq<Step>, b: seq<Step>)
    requires |w.history| > 0
    ensures Run(w, a + b) == Run(Run(w, a), b)
  {
    hide Next;
    if b == [] {
      assert a + b == a;
    } else {
      RunConcat(w, a, b[..|b| - 1]);
      assert a + b == (a + b[..|b| - 1]) + [b[|b| - 1]];
      RunMore(w, a + b[..|b| - 1], b[|b| - 1]);
    }
  }

  lemma Intends(w: World, i: nat, t: int, job: Replacing)
    requires |w.history| > 0 && i < |w.runners| && w.runners[i].pc.Ready?
    requires Propose(w.runners[i].pc.approved, Some(Move(Applying, t, NO_SUPPORT))) == Some(job)
    requires w.runners[i].root !in w.intents && ApprovalCurrent(w.runners[i].approval, t)
    requires w.runners[i].pc.approved.approval == Some(DigestOf(w.runners[i].approval))
    ensures Next(w, By(i, Intend(t))) == At(w, i, Consuming(job)).(intents := w.intents + {w.runners[i].root})
  {
    hide Perform;
  }

  /** An answered write and an answered read of one process: it wins if its proposal is
      durable afterwards, whoever committed it. */
  lemma Wins(w: World, i: nat, l1: Ledger, l2: Ledger, action: Action) returns (steps: seq<Step>)
    requires |w.history| > 0 && i < |w.runners| && l1 != l2
    requires w.runners[i].pc == Consuming(Replacing(l1, l2, action, Writing(0)))
    requires Durable(w) == l1 || Durable(w) == l2
    ensures Run(w, steps) == At(if Durable(w) == l1 then Commit(w, l2, action) else w, i, Consumed(l2))
  {
    hide Perform;
    var first := RunOf(w, [], By(i, Write(true, true)));
    var w1 := At(if Durable(w) == l1 then Commit(w, l2, action) else w, i,
                 Consuming(Replacing(l1, l2, action, Reading(0, 0, Durable(w) == l1))));
    assert Run(w, first) == w1;
    steps := RunOf(w, first, By(i, Read(true)));
  }

  lemma Applies(w: World, i: nat, l: Ledger)
    requires |w.history| > 0 && i < |w.runners| && w.runners[i].pc == Consumed(l)
    ensures Next(w, By(i, Terraform(true))) == At(w, i, Settling(l, true)).(applied := w.applied + [i])
  {
    hide Perform;
  }

  /** Two processes holding the same approved ledger, in different roots, write their
      intents. */
  lemma BothIntend(w: World, i: nat, j: nat, t: int, job: Replacing) returns (steps: seq<Step>)
    requires |w.history| > 0 && i < |w.runners| && j < |w.runners| && i != j
    requires w.runners[i].pc == w.runners[j].pc == Ready(Durable(w))
    requires w.runners[i].approval == w.runners[j].approval && ApprovalCurrent(w.runners[i].approval, t)
    requires Durable(w).approval == Some(DigestOf(w.runners[i].approval))
    requires w.runners[i].root !in w.intents && w.runners[j].root !in w.intents && w.runners[i].root != w.runners[j].root
    requires Propose(Durable(w), Some(Move(Applying, t, NO_SUPPORT))) == Some(job)
    ensures Run(w, steps) == At(At(w, i, Consuming(job)), j, Consuming(job)).(
                               intents := w.intents + {w.runners[i].root} + {w.runners[j].root})
  {
    hide Perform, Next, Propose, ApprovalCurrent, Run;
    Intends(w, i, t, job);
    Intends(At(w, i, Consuming(job)).(intents := w.intents + {w.runners[i].root}), j, t, job);
    RunNone(w);
    steps := RunOf(w, RunOf(w, [], By(i, Intend(t))), By(j, Intend(t)));
  }

  /** Two processes with the same APPLYING proposal both win it and start the apply: the
      second one's write is refused, but its readback equals its own proposal. */
  lemma BothWin(w: World, i: nat, j: nat, l1: Ledger, l2: Ledger, action: Action) returns (steps: seq<Step>)
    requires |w.history| > 0 && i < |w.runners| && j < |w.runners| && i != j && l1 != l2 && Durable(w) == l1
    requires w.runners[i].pc == w.runners[j].pc == Consuming(Replacing(l1, l2, action, Writing(0)))
    ensures Run(w, steps).applied == w.applied + [i] + [j]
  {
    hide Next, Run;
    var a1 := Wins(w, i, l1, l2, action);
    var w1 := At(Commit(w, l2, action), i, Consumed(l2));
    var a2 := Wins(w1, j, l1, l2, action);
    var w2 := At(w1, j, Consumed(l2));
    Applies(w2, i, l2);
    Applies(At(w2, i, Settling(l2, true)).(applied := w2.applied + [i]), j, l2);
    RunConcat(w, a1, a2);
    steps := RunOf(w, RunOf(w, a1 + a2, By(i, Terraform(true))), By(j, Terraform(true)));
  }

  lemma Consumption(l: Ledger, t: int) returns (job: Replacing)
    requires l.status == Approved && l.attempts == 0 && ValidDocument(l)
    ensures Propose(l, Some(Move(Applying, t, NO_SUPPORT))) == Some(job)
    ensures job == Replacing(l, job.proposed, job.action, Writing(0)) && job.proposed != l
  {
    var action := Move(Applying, t, NO_SUPPORT);
    job := Replacing(l, Perform(l, action).value, action, Writing(0));
    assert job.proposed.version == l.version + 1;
  }

  /** Two processes holding the same approved ledger, in different roots, both consume the
      attempt and start the apply. */
  lemma BothConsume(w: World, i: nat, j: nat, t: int) returns (steps: seq<Step>)
    requires |w.history| > 0 && i < |w.runners| && j < |w.runners| && i != j
    requires w.runners[i].pc == w.runners[j].pc == Ready(Durable(w))
    requires w.runners[i].approval == w.runners[j].approval && ApprovalCurrent(w.runners[i].approval, t)
    requires Durable(w).status == Approved && Durable(w).attempts == 0 && ValidDocument(Durable(w))
    requires Durable(w).approval == Some(DigestOf(w.runners[i].approval))
    requires w.runners[i].root !in w.intents && w.runners[j].root !in w.intents && w.runners[i].root != w.runners[j].root
    requires w.applied == []
    ensures Run(w, steps).applied == [i, j]
  {
    hide Perform, Next, Propose, ApprovalCurrent, ValidDocument, Run;
    var job := Consumption(Durable(w), t);
    var first := BothIntend(w, i, j, t, job);
    var last := BothWin(Run(w, first), i, j, job.current, job.proposed, job.action);
    RunConcat(w, first, last);
    steps := first + last;
  }

  lemma RunNone(w: World)
    requires |w.history| > 0
    ensures Run(w, []) == w
  {
  }

  /** Both processes are admitted, the first selects the approval, the second finds it selected. */
  lemma BothReady(w: World, i: nat, j: nat, t: int) returns (steps: seq<Step>)
    requires |w.history| > 0 && i < |w.runners| && j < |w.runners| && i != j
    requires w.runners[i].pc == w.runners[j].pc == Start && w.runners[i].approval == w.runners[j].approval
    requires Durable(w).status == Planned && Durable(w).attempts == 0 && ValidDocument(Durable(w))
    requires ApprovalFits(Durable(w), w.runners[i].approval, t)
    ensures var g := Run(w, steps);
            && g.runners == w.runners[i := w.runners[i].(pc := Ready(Durable(g)))][j := w.runners[j].(pc := Ready(Durable(g)))]
            && g.intents == w.intents && g.applied == w.applied
            && Durable(g).status == Approved && Durable(g).attempts == 0 && ValidDocument(Durable(g))
            && Durable(g).approval == Some(DigestOf(w.runners[i].approval))
  {
    hide Perform, ApprovalFits, ValidDocument, History;
    var action := Move(Approved, t, NO_SUPPORT.(approval := Some(w.runners[i].approval)));
    FirstApproval(Durable(w), w.runners[i].approval, t);
    var l1 := Perform(Durable(w), action).value;
    var first := RunOf(w, RunOf(w, [], By(i, Look(true, t, NO_SUPPORT))), By(j, Look(true, t, NO_SUPPORT)));
    var w2 := At(At(w, i, Admitted), j, Admitted);
    assert Next(w, By(i, Look(true, t, NO_SUPPORT))) == At(w, i, Admitted);
    assert Run(w, first) == w2;
    var second := SelectsFirst(w2, i, t);
    RunConcat(w, first, second);
    var w3 := At(Commit(w2, l1, action), i, Ready(l1));
    assert Next(w3, By(j, Choose(true, t))) == At(w3, j, Ready(l1));
    steps := RunOf(w, first + second, By(j, Choose(true, t)));
  }

  /** An approval that the ledger of the plan accepts while it lasts. */
  predicate Usable(plan: PlanRecord, a: Approval) {
    ApprovalFits(InitialLedger(plan, 0), a, a.observedAt)
  }

  /** Two workflow runs with one approval but two roots can both start the apply. */
  lemma SharedApprovalAppliesTwice(plan: PlanRecord, at: int, runners: seq<Runner>, i: nat, j: nat) returns (steps: seq<Step>)
    requires forall r :: r in runners ==> r.pc == Start
    requires i < |runners| && j < |runners| && runners[i].approval == runners[j].approval
    requires runners[i].root != runners[j].root && Usable(plan, runners[i].approval)
    ensures Run(Initial(plan, at, runners), steps).applied == [i, j]
  {
    var w := Initial(plan, at, runners);
    var t := runners[i].approval.observedAt;
    assert runners[i] in runners && runners[j] in runners;
    assert ApprovalFits(InitialLedger(plan, at), runners[i].approval, t);
    hide Run, Next;
    var first := BothReady(w, i, j, t);
    var last := BothConsume(Run(w, first), i, j, t);
    RunConcat(w, first, last);
    steps := first + last;
  }

  /** The separation is exactly what at-most-once needs. */
  lemma AtMostOnceIffSeparated(plan: PlanRecord, at: int, runners: seq<Runner>)
    requires forall r :: r in runners ==> r.pc == Start && Usable(plan, r.approval)
    ensures (forall steps: seq<Step> :: |Run(Initial(plan, at, runners), steps).applied| <= 1)
            <==> ApprovalDeterminesRoot(runners)
  {
    if ApprovalDeterminesRoot(runners) {
      forall steps: seq<Step> ensures |Run(Initial(plan, at, runners), steps).applied| <= 1 {
        AtMostOneApply(plan, at, runners, steps);
      }
    } else {
      var i, j :| 0 <= i < |runners| && 0 <= j < |runners| && runners[i].approval == runners[j].approval
                  && runners[i].root != runners[j].root;
      assert runners[i] in runners;
      var steps := SharedApprovalAppliesTwice(plan, at, runners, i, j);
      assert |Run(Initial(plan, at, runners), steps).applied| == 2;
    }
  }

  // ---------------------------------------------------------------- the runs the protocol is for

  lemma OneReady(w: World, i: nat, t: int) returns (steps: seq<Step>)
    requires |w.history| > 0 && i < |w.runners| && w.runners[i].pc == Start
    requires Durable(w).status == Planned && Durable(w).attempts == 0 && ValidDocument(Durable(w))
    requires ApprovalFits(Durable(w), w.runners[i].approval, t)
    ensures var g := Run(w, steps);
            && g.runners == w.runners[i := w.runners[i].(pc := Ready(Durable(g)))] && g.intents == w.intents && g.applied == w.applied
            && Durable(g).status == Approved && Durable(g).attempts == 0 && ValidDocument(Durable(g))
            && Durable(g).approval == Some(DigestOf(w.runners[i].approval))
  {
    hide Perform, ApprovalFits, ValidDocument, History;
    var action := Move(Approved, t, NO_SUPPORT.(approval := Some(w.runners[i].approval)));
    FirstApproval(Durable(w), w.runners[i].approval, t);
    RunNone(w);
    var first := RunOf(w, [], By(i, Look(true, t, NO_SUPPORT)));
    assert Run(w, first) == At(w, i, Admitted);
    var second := SelectsFirst(At(w, i, Admitted), i, t);
    RunConcat(w, first, second);
    steps := first + second;
  }

  /** What Terraform reported is what the process may commit, with the code for it. */
  lemma Settles(w: World, i: nat, l: Ledger, reported: bool, t: int)
    requires |w.history| > 0 && i < |w.runners| && w.runners[i].pc == Consumed(l) && Durable(w) == l
    requires l.status == Applying && ValidDocument(l)
    ensures var g := Next(Next(w, By(i, Terraform(reported))), By(i, Settle(if reported then Applied else Uncertain, t, true)));
            && |g.history| == |w.history| + 1 && Durable(g).status == (if reported then Applied else Uncertain)
            && Durable(g).outcome == Some(if reported then ApplySucceeded else ResponseLost)
            && Durable(g).approval == l.approval && g.applied == w.applied + [i]
  {
  }

  lemma ConsumedLedger(l: Ledger, t: int)
    requires l.status == Approved && l.attempts == 0 && ValidDocument(l)
    ensures var n := Perform(l, Move(Applying, t, NO_SUPPORT)); n.Ok? && n.value.status == Applying && ValidDocument(n.value) && n.value != l
  {
    assert Perform(l, Move(Applying, t, NO_SUPPORT)).value.version == l.version + 1;
  }

  /** One process alone can take any plan from PLANNED to the outcome that Terraform
      reports, if its approval is usable. */
  lemma OutcomeIsReached(plan: PlanRecord, at: int, runners: seq<Runner>, i: nat, reported: bool) returns (steps: seq<Step>)
    requires i < |runners| && runners[i].pc == Start && Usable(plan, runners[i].approval)
    ensures var g := Run(Initial(plan, at, runners), steps);
            && g.applied == [i] && Durable(g).status == (if reported then Applied else Uncertain)
            && Durable(g).outcome == Some(if reported then ApplySucceeded else ResponseLost)
            && Durable(g).approval == Some(DigestOf(runners[i].approval))
  {
    var w, t := Initial(plan, at, runners), runners[i].approval.observedAt;
    assert ApprovalFits(InitialLedger(plan, at), runners[i].approval, t);
    hide Run, Next, Perform, Propose, ApprovalFits, ValidDocument, ApprovalCurrent;
    steps := OneReady(w, i, t);
    var w1 := Run(w, steps);
    var more := AttemptSettled(w1, i, t, reported);
    RunConcat(w, steps, more);
    steps := steps + more;
  }

  /** From a selected approval to the outcome. */
  lemma AttemptSettled(w: World, i: nat, t: int, reported: bool) returns (steps: seq<Step>)
    requires |w.history| > 0 && i < |w.runners| && w.runners[i].pc == Ready(Durable(w)) && w.runners[i].root !in w.intents
    requires Durable(w).status == Approved && Durable(w).attempts == 0 && ValidDocument(Durable(w))
    requires Durable(w).approval == Some(DigestOf(w.runners[i].approval)) && ApprovalCurrent(w.runners[i].approval, t)
    ensures var g := Run(w, steps);
            && g.applied == w.applied + [i] && Durable(g).status == (if reported then Applied else Uncertain)
            && Durable(g).outcome == Some(if reported then ApplySucceeded else ResponseLost)
            && Durable(g).approval == Durable(w).approval
  {
    hide Run, Next, Perform, Propose, ValidDocument, ApprovalCurrent;
    var job := Consumption(Durable(w), t);
    ConsumedLedger(Durable(w), t);
    ProposedIs(Durable(w), t, job);
    Intends(w, i, t, job);
    RunNone(w);
    steps := RunOf(w, [], By(i, Intend(t)));
    var w2 := Run(w, steps);
    var won := Wins(w2, i, job.current, job.proposed, job.action);
    RunConcat(w, steps, won);
    Settles(Run(w2, won), i, job.proposed, reported, t);
    steps := RunOf(w, steps + won, By(i, Terraform(reported)));
    steps := RunOf(w, steps, By(i, Settle(if reported then Applied else Uncertain, t, true)));
  }

  lemma ProposedIs(l: Ledger, t: int, job: Replacing)
    requires Propose(l, Some(Move(Applying, t, NO_SUPPORT))) == Some(job)
    ensures Perform(l, Move(Applying, t, NO_SUPPORT)) == Ok(job.proposed) && job.proposed.approval == l.approval && job.current == l
  {
  }

  /** A process that finds the attempt settled commits what its read-only checks support. */
  lemma Resumes(w: World, i: nat, t: int, s: Support, n: Ledger) returns (steps: seq<Step>)
    requires |w.history| > 0 && i < |w.runners| && w.runners[i].pc == Start
    requires Durable(w).status in {Applied, ReconciledApplied} || (Durable(w).status == Uncertain && s.reconciliation.Some?)
    requires var next := if Durable(w).status == Uncertain then s.reconciliation.value.decision else Healthy;
             Perform(Durable(w), Move(next, t, s)) == Ok(n)
    requires n != Durable(w)
    ensures Run(w, steps).history == w.history + [n] && Run(w, steps).applied == w.applied
  {
    hide Perform, Run;
    RunNone(w);
    var l0, next := Durable(w), if Durable(w).status == Uncertain then s.reconciliation.value.decision else Healthy;
    var action := Move(next, t, s);
    steps := RunOf(w, [], By(i, Look(true, t, s)));
    assert Run(w, steps) == At(w, i, Closing(Replacing(l0, n, action, Writing(0))));
    steps := RunOf(w, steps, By(i, Write(true, true)));
  }

  // ---------------------------------------------------------------- single calls

  /** Whose turn it is: what a process can do where it stands. */
  predicate InTurn(pc: Pc, e: Event) {
    match pc
    case Start => e.Look?
    case Admitted => e.Choose?
    case Selecting(job) => e.Fail? || (job.confirm.Writing? && e.Write?) || (job.confirm.Reading? && e.Read?)
    case Ready(_) => e.Fail? || e.Intend?
    case Consuming(job) => e.Fail? || (job.confirm.Writing? && e.Write?) || (job.confirm.Reading? && e.Read?)
    case Consumed(_) => e.Fail? || e.Terraform?
    case Settling(_, _) => e.Settle?
    case Closing(job) => e.Fail? || (job.confirm.Writing? && e.Write?) || (job.confirm.Reading? && e.Read?)
    case Stopped => false
  }

  /** A call out of turn does nothing. */
  lemma OutOfTurn(w: World, i: nat, e: Event)
    requires Inv(w) && |w.history| > 0 && i < |w.runners| && !InTurn(w.runners[i].pc, e)
    ensures Next(w, By(i, e)) == w
  {
    hide Perform, History, Inv, Selection, Resumption;
    Known(w, i);
  }

  /** A request that gets lost commits nothing now, and may commit at any later time exactly
      if the ledger it was made for is still the durable one. */
  lemma LostRequest(w: World, i: nat, job: Replacing, answered: bool)
    requires |w.history| > 0 && i < |w.runners| && job.confirm.Writing?
    requires w.runners[i].pc in {Selecting(job), Consuming(job), Closing(job)}
    ensures var g := Next(w, By(i, Write(false, answered)));
            && g.history == w.history && g.late == w.late + [job] && g.runners[i].pc in {
                 Selecting(job.(confirm := Reading(job.confirm.attempt, 0, false))),
                 Consuming(job.(confirm := Reading(job.confirm.attempt, 0, false))),
                 Closing(job.(confirm := Reading(job.confirm.attempt, 0, false)))}
            && Next(g, Arrival(|w.late|)).history == (if Durable(w) == job.current then w.history + [job.proposed] else w.history)
  {
    hide Perform, Selection, Resumption;
  }

  /** A request that arrives commits exactly over the ledger it was made for, and without its
      reply the process is no wiser than after a refusal. */
  lemma LostReply(w: World, i: nat, job: Replacing)
    requires |w.history| > 0 && i < |w.runners| && job.confirm.Writing?
    requires w.runners[i].pc in {Selecting(job), Consuming(job), Closing(job)}
    ensures var g := Next(w, By(i, Write(true, false)));
            && g.history == (if Durable(w) == job.current then w.history + [job.proposed] else w.history) && g.late == w.late
            && g.runners[i].pc == Next(w, By(i, Write(false, false))).runners[i].pc
  {
    hide Perform, Selection, Resumption;
  }

  /** What a first look leads to. */
  lemma LookDecides(w: World, i: nat, answered: bool, at: int, s: Support)
    requires |w.history| > 0 && i < |w.runners| && w.runners[i].pc == Start
    ensures var pc := Next(w, By(i, Look(answered, at, s))).runners[i].pc;
            && Next(w, By(i, Look(answered, at, s))) == At(w, i, pc)
            && (pc.Stopped? || pc.Admitted? || pc.Closing?)
            && (pc.Admitted? <==> answered && Durable(w).status in {Planned, Approved, Rejected, Expired, Failed, FailedHealth})
            && (pc.Closing? ==> answered && Durable(w).status in {Applied, ReconciledApplied, Uncertain} && pc.job.current == Durable(w))
  {
    hide Perform, Selection;
    EveryStatus(Durable(w).status);
  }

  /** What an admitted process does next: it goes on with an approval of its own that is
      selected already, and selects it over a PLANNED ledger or instead of another approval
      that is still unused. */
  lemma ChoiceDecides(w: World, i: nat, answered: bool, at: int)
    requires |w.history| > 0 && i < |w.runners| && w.runners[i].pc == Admitted && ValidDocument(Durable(w))
    ensures var l, a, g := Durable(w), w.runners[i].approval, Next(w, By(i, Choose(answered, at)));
            var pc := g.runners[i].pc;
            && g == At(w, i, pc) && (pc.Ready? || pc.Selecting? || pc.Stopped?)
            && (pc.Ready? <==> answered && l.status == Approved && l.attempts == 0 && l.approval == Some(DigestOf(a)))
            && (pc.Ready? ==> pc.approved == l)
            && (pc.Selecting? <==>
                  && answered && ApprovalFits(l, a, at)
                  && (l.status == Planned || (l.status == Approved && l.attempts == 0 && l.approval != Some(DigestOf(a)))))
            && (pc.Selecting? ==>
                  && pc.job.current == l && pc.job.confirm == Writing(0) && pc.job.proposed.status == Approved
                  && pc.job.proposed.approval == Some(DigestOf(a)) && pc.job.proposed.attempts == l.attempts
                  && pc.job.proposed.version == l.version + 1 && pc.job.proposed.updatedAt == ToSecond(at))
  {
    hide ApprovalFits, Resumption, PrepareTransition, PrepareReapproval, ValidDocument;
    var l, a, s := Durable(w), w.runners[i].approval, NO_SUPPORT.(approval := Some(w.runners[i].approval));
    TransitionIsExact(l, Approved, l.version, DigestOfLedger(l), at, s);
    ReapprovalIsExact(l, a, l.version, DigestOfLedger(l), at);
    if Perform(l, Move(Approved, at, s)).Ok? { TransitionWrites(l, Approved, at, s, Perform(l, Move(Approved, at, s)).value); }
  }

  /** A process that fails goes no further, and one that has consumed the attempt reports no
      success. Nothing that it has sent is taken back. */
  lemma FailureStops(w: World, i: nat)
    requires |w.history| > 0 && i < |w.runners|
    ensures var pc, g := w.runners[i].pc, Next(w, By(i, Fail));
            && (pc.Selecting? || pc.Ready? || pc.Consuming? || pc.Closing? ==> g == At(w, i, Stopped))
            && (pc.Consumed? ==> g == At(w, i, Settling(pc.applying, false)))
  {
    hide Perform, Selection, Resumption;
  }

  /** The same replacement, with more calls made. */
  function Undecided(pc: Pc, job: Replacing): Replacing {
    if pc.Selecting? || pc.Consuming? || pc.Closing? then job.(confirm := pc.job.confirm) else job
  }

  /** A read that is not answered confirms nothing. */
  lemma NotAnswered(w: World, i: nat, job: Replacing)
    requires |w.history| > 0 && i < |w.runners| && job.confirm.Reading?
    requires w.runners[i].pc in {Selecting(job), Consuming(job), Closing(job)}
    ensures var g := Next(w, By(i, Read(false)));
            var pc := g.runners[i].pc;
            && g == At(w, i, pc)
            && (pc.Stopped? || pc in {Selecting(Undecided(pc, job)), Consuming(Undecided(pc, job)), Closing(Undecided(pc, job))})
  {
    hide Perform, Selection, Resumption;
  }

  lemma EveryStatus(s: Status)
    ensures s in {Planned, Approved, Rejected, Expired, Failed, FailedHealth}
      <==> s !in {Applying, Healthy, ReconciliationRequired} && s !in {Applied, ReconciledApplied, Uncertain}
  {
    match s
    case _ =>
  }

  /** An outcome that is not delivered, or meets another ledger, is not committed. */
  lemma SettleMisses(w: World, i: nat, next: Status, at: int, delivered: bool)
    requires |w.history| > 0 && i < |w.runners| && w.runners[i].pc.Settling?
    requires !delivered || Durable(w) != w.runners[i].pc.applying
    ensures Next(w, By(i, Settle(next, at, delivered))) == w
  {
  }

  /** Recovery of a stale lease, rejection, expiry and failures may be committed by others at
      any time they are legal. */
  lemma OthersMayCommit(w: World, action: Action, n: Ledger)
    requires |w.history| > 0 && Perform(Durable(w), action) == Ok(n)
    requires action.Recover? || (action.Move? && action.next in {Rejected, Expired, Failed, FailedHealth})
    ensures Next(w, Elsewhere(action)).history == w.history + [n]
  {
    hide Perform;
  }
}
