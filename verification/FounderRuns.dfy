/** Any number of founder Plan and Apply runs against one durable ledger, interleaved
    call by call, with lost requests and lost replies. */
module FounderRuns {
  import opened Digests
  import opened Outcomes
  import opened FounderPep

  /** What a run was started for. */
  datatype Kind = PlanRun(caller: string) | ApplyRun(caller: string, changeSet: ChangeSet)

  /** What the external effect came back with, if it came back. */
  datatype Effect = Reviewed(changeSet: ChangeSet, record: string, exception: string) | Applied | Raised

  datatype Pc =
    | Start
    | Claiming(current: Ledger, claim: Action, claimed: Ledger)
    | Acting(claimed: Ledger)
    | Finishing(claimed: Ledger, finish: Action, final: Ledger)
    | Checking(claimed: Ledger, finish: Action, final: Ledger)
    | Losing(claimed: Ledger, loss: Action, lost: Ledger)
    | Returned(final: Ledger)
    | GaveUp

  datatype Run = Run(kind: Kind, pc: Pc)

  /** A conditional put that was sent by a run. */
  datatype Request = Request(who: nat, expected: Ledger, next: Ledger, action: Action)

  /** The durable past of the ledger, who committed each value (none for the first), the
      runs, the runs that started their effect, in order, and the requests that had not
      arrived when their call ended and may still arrive. */
  datatype World = World(
    intent: Intent, history: seq<Ledger>, actions: seq<Action>, owners: seq<Option<nat>>, runs: seq<Run>,
    planEffects: seq<nat>, applyEffects: seq<nat>, late: seq<Request>)

  datatype Event =
    | Read(answered: bool, at: int)
    | Write(delivered: bool, answered: bool)
    | Act(effect: Effect, at: int, failedAt: int)
    | ReadBack(answered: bool)

  datatype Step = By(who: nat, event: Event) | Arrival(k: nat) | Elsewhere(action: Action)

  function Durable(w: World): Ledger
    requires |w.history| > 0
  {
    w.history[|w.history| - 1]
  }

  function At(w: World, who: nat, pc: Pc): World
    requires who < |w.runs|
  {
    w.(runs := w.runs[who := w.runs[who].(pc := pc)])
  }

  function Commit(w: World, n: Ledger, a: Action, owner: Option<nat>): World {
    w.(history := w.history + [n], actions := w.actions + [a], owners := w.owners + [owner])
  }

  /** The claim a run makes on the ledger it read. */
  function ClaimOf(k: Kind, at: int): Action {
    match k
    case PlanRun(caller) => PlanClaim(caller, at)
    case ApplyRun(caller, c) => ApplyClaim(caller, c, at)
  }

  /** The step that would end the run after its effect, if the effect came back. */
  function FinishOf(k: Kind, e: Effect, at: int): Option<Action> {
    match (k, e)
    case (PlanRun(_), Reviewed(c, record, exception)) => Some(PlanReview(c, record, exception, at))
    case (ApplyRun(_, _), Applied) => Some(Conclude(Succeeded, at))
    case _ => None
  }

  /** Proposing a step: where the run goes, or failure if the step is refused. */
  function Giving(i: Intent, claimed: Ledger, at: int): Pc {
    var loss := Conclude(Uncertain, at);
    if Perform(i, claimed, loss).Ok? then Losing(claimed, loss, Perform(i, claimed, loss).value) else GaveUp
  }

  /** What follows the effect. A Plan that comes back late or malformed is given up as
      UNCERTAIN; an Apply whose conclusion is refused leaves the claim standing. */
  function Concluding(i: Intent, k: Kind, claimed: Ledger, e: Effect, at: int, failedAt: int): Pc {
    var finish := FinishOf(k, e, at);
    if finish.Some? && Perform(i, claimed, finish.value).Ok?
    then Finishing(claimed, finish.value, Perform(i, claimed, finish.value).value)
    else if finish.Some? && k.ApplyRun? then GaveUp
    else Giving(i, claimed, failedAt)
  }

  function Next(w: World, s: Step): World
    requires |w.history| > 0
  {
    match s
    case Elsewhere(action) =>
      // anybody may revoke a finished exception; nobody else claims or concludes
      if action.Revoke? && Perform(w.intent, Durable(w), action).Ok?
      then Commit(w, Perform(w.intent, Durable(w), action).value, action, None) else w
    case Arrival(k) => if k < |w.late| then Deliver(w, w.late[k]) else w
    case By(who, e) => if who < |w.runs| then Advance(w, who, w.runs[who], e) else w
  }

  /** A request takes effect only over the ledger it expects. */
  function Deliver(w: World, r: Request): World
    requires |w.history| > 0
  {
    if Durable(w) == r.expected then Commit(w, r.next, r.action, Some(r.who)) else w
  }

  /** A conditional put: it commits only over the expected ledger, and is answered only if it committed. */
  function Put(w: World, who: nat, expected: Ledger, n: Ledger, a: Action, e: Event): (World, bool)
    requires |w.history| > 0 && e.Write?
  {
    var request := Request(who, expected, n, a);
    if e.delivered then (Deliver(w, request), Durable(w) == expected && e.answered)
    else (w.(late := w.late + [request]), false)
  }

  function Advance(w: World, who: nat, r: Run, e: Event): World
    requires |w.history| > 0 && who < |w.runs|
  {
    match r.pc
    case Start =>
      if !e.Read? then w
      else
        var claim := ClaimOf(r.kind, e.at);
        At(w, who, if e.answered && Perform(w.intent, Durable(w), claim).Ok?
                   then Claiming(Durable(w), claim, Perform(w.intent, Durable(w), claim).value) else GaveUp)
    case Claiming(current, claim, claimed) =>
      // no confirmation by readback here: without an answer there is no effect
      if !e.Write? then w
      else
        var (w', ok) := Put(w, who, current, claimed, claim, e);
        At(w', who, if ok then Acting(claimed) else GaveUp)
    case Acting(claimed) =>
      if !e.Act? then w
      else
        var w' := if r.kind.PlanRun? then w.(planEffects := w.planEffects + [who]) else w.(applyEffects := w.applyEffects + [who]);
        At(w', who, Concluding(w.intent, r.kind, claimed, e.effect, e.at, e.failedAt))
    case Finishing(claimed, finish, final) =>
      if !e.Write? then w
      else
        var (w', ok) := Put(w, who, claimed, final, finish, e);
        At(w', who, if ok then Returned(final) else Checking(claimed, finish, final))
    case Checking(claimed, finish, final) =>
      if !e.ReadBack? then w
      else At(w, who, if !e.answered then GaveUp
                      else if Durable(w) == final then Returned(final)
                      else if Durable(w) == claimed then Giving(w.intent, claimed, finish.at)
                      else GaveUp)
    case Losing(claimed, loss, lost) =>
      if !e.Write? then w
      else At(Put(w, who, claimed, lost, loss, e).0, who, GaveUp)
    case Returned(_) => w
    case GaveUp => w
  }

  function Initial(i: Intent, first: Ledger, runs: seq<Run>): World {
    World(i, [first], [], [None], runs, [], [], [])
  }

  function RunAll(w: World, steps: seq<Step>): (r: World)
    requires |w.history| > 0
    ensures |r.history| > 0
  {
    if steps == [] then w else Next(RunAll(w, steps[..|steps| - 1]), steps[|steps| - 1])
  }

  // ---------------------------------------------------------------- what every interleaving keeps

  /** The run's own claim is in the durable past. */
  ghost predicate OwnsClaim(w: World, who: nat, l: Ledger) {
    exists k :: 0 <= k < |w.history| && |w.owners| == |w.history| && w.history[k] == l && w.owners[k] == Some(who)
  }

  predicate ClaimState(k: Kind, l: Ledger) {
    match k
    case PlanRun(_) => l.state == PlanAttempted
    case ApplyRun(_, c) => l.state == ApplyAttempted && l.changeSet == Some(c)
  }

  ghost predicate Holds(w: World, who: nat, r: Run) {
    match r.pc
    case Start => true
    case Claiming(current, claim, claimed) => Perform(w.intent, current, claim) == Ok(claimed) && ClaimState(r.kind, claimed)
    case Acting(claimed) => OwnsClaim(w, who, claimed) && ClaimState(r.kind, claimed)
    case Finishing(claimed, finish, final) => Finish(w, who, r.kind, claimed, finish, final)
    case Checking(claimed, finish, final) => Finish(w, who, r.kind, claimed, finish, final)
    case Losing(claimed, loss, lost) =>
      OwnsClaim(w, who, claimed) && Perform(w.intent, claimed, loss) == Ok(lost) && lost.state == Uncertain
    case Returned(final) => final in w.history && final.state == (if r.kind.PlanRun? then PlanReviewed else Succeeded)
                            && EffectStarted(w, who, r.kind)
    case GaveUp => true
  }

  ghost predicate Finish(w: World, who: nat, k: Kind, claimed: Ledger, finish: Action, final: Ledger) {
    && OwnsClaim(w, who, claimed) && Perform(w.intent, claimed, finish) == Ok(final)
    && final.state == (if k.PlanRun? then PlanReviewed else Succeeded)
    && EffectStarted(w, who, k)
  }

  predicate EffectStarted(w: World, who: nat, k: Kind) {
    if k.PlanRun? then who in w.planEffects else who in w.applyEffects
  }

  /** Every run that started an effect owns its claim, and is past the effect. */
  ghost predicate EffectsOwned(w: World, effects: seq<nat>, plan: bool) {
    && (forall k :: 0 <= k < |effects| ==> EffectOwned(w, effects[k], plan))
    && (forall k, m :: 0 <= k < m < |effects| ==> effects[k] != effects[m])
  }

  ghost predicate EffectOwned(w: World, who: nat, plan: bool) {
    && who < |w.runs| && w.runs[who].kind.PlanRun? == plan
    && !w.runs[who].pc.Start? && !w.runs[who].pc.Claiming? && !w.runs[who].pc.Acting?
    && exists l :: OwnsClaim(w, who, l) && ClaimState(w.runs[who].kind, l)
  }

  /** A conclusion is committed directly over the claim, by the run that made the claim. */
  ghost predicate Concluded(h: seq<Ledger>, owners: seq<Option<nat>>, k: nat)
    requires |owners| == |h| && k < |h|
  {
    && h[k].state != State.Failed
    && (h[k].state in {PlanAttempted, ApplyAttempted} ==> owners[k].Some?)
    && (h[k].state in {PlanReviewed, Succeeded, Uncertain} ==>
          k > 0 && owners[k].Some? && owners[k] == owners[k - 1] && h[k - 1].state in {PlanAttempted, ApplyAttempted})
  }

  ghost predicate AllConcluded(h: seq<Ledger>, owners: seq<Option<nat>>) {
    |owners| == |h| && forall k: nat :: k < |h| ==> Concluded(h, owners, k)
  }

  /** A late request is a legal step, and a conclusion only over the claim of its own run. */
  ghost predicate RequestSound(w: World, r: Request) {
    && Perform(w.intent, r.expected, r.action) == Ok(r.next) && r.next.state != State.Failed
    && (r.next.state in {PlanReviewed, Succeeded, Uncertain} ==>
          OwnsClaim(w, r.who, r.expected) && r.expected.state in {PlanAttempted, ApplyAttempted})
  }

  ghost predicate LateSound(w: World) {
    forall k :: 0 <= k < |w.late| ==> RequestSound(w, w.late[k])
  }

  ghost predicate Inv(w: World) {
    && LateSound(w)
    && History(w.intent, w.history, w.actions) && AllConcluded(w.history, w.owners)
    && (forall who: nat :: who < |w.runs| ==> Holds(w, who, w.runs[who]))
    && EffectsOwned(w, w.planEffects, true) && EffectsOwned(w, w.applyEffects, false)
  }

  // ---------------------------------------------------------------- the invariant is kept

  ghost predicate Extends(w: World, g: World) {
    && |w.owners| == |w.history| <= |g.history| == |g.owners|
    && g.history[..|w.history|] == w.history && g.owners[..|w.owners|] == w.owners
    && g.intent == w.intent
    && (forall i :: i in w.planEffects ==> i in g.planEffects) && (forall i :: i in w.applyEffects ==> i in g.applyEffects)
  }

  lemma OwnsLater(w: World, g: World, who: nat, l: Ledger)
    requires Extends(w, g) && OwnsClaim(w, who, l)
    ensures OwnsClaim(g, who, l)
  {
    var k :| 0 <= k < |w.history| && w.history[k] == l && w.owners[k] == Some(who);
    assert g.history[k] == l && g.owners[k] == Some(who);
  }

  lemma LateSoundLater(w: World, g: World)
    requires Extends(w, g) && LateSound(w) && g.late == w.late
    ensures LateSound(g)
  {
    hide Perform, OwnsClaim;
    forall k | 0 <= k < |g.late| ensures RequestSound(g, g.late[k]) {
      assert RequestSound(w, w.late[k]);
      if g.late[k].next.state in {PlanReviewed, Succeeded, Uncertain} {
        OwnsLater(w, g, g.late[k].who, g.late[k].expected);
      }
    }
  }

  lemma HoldsLater(w: World, g: World, who: nat, r: Run)
    requires Extends(w, g) && Holds(w, who, r)
    ensures Holds(g, who, r)
  {
    hide Perform, OwnsClaim;
    if r.pc.Acting? || r.pc.Finishing? || r.pc.Checking? || r.pc.Losing? {
      OwnsLater(w, g, who, r.pc.claimed);
    }
    if r.pc.Returned? {
      var k :| 0 <= k < |w.history| && w.history[k] == r.pc.final;
      assert g.history[k] == r.pc.final;
    }
  }

  lemma EffectOwnedLater(w: World, g: World, who: nat, plan: bool)
    requires Extends(w, g) && EffectOwned(w, who, plan) && |g.runs| == |w.runs|
    requires g.runs[who].kind == w.runs[who].kind
    requires !g.runs[who].pc.Start? && !g.runs[who].pc.Claiming? && !g.runs[who].pc.Acting?
    ensures EffectOwned(g, who, plan)
  {
    hide OwnsClaim;
    var l :| OwnsClaim(w, who, l) && ClaimState(w.runs[who].kind, l);
    OwnsLater(w, g, who, l);
  }

  /** Commits keep the past in order. */
  lemma CommitKeeps(w: World, n: Ledger, a: Action, owner: Option<nat>)
    requires Inv(w) && Perform(w.intent, Durable(w), a) == Ok(n)
    requires n.state != State.Failed && (n.state in {PlanAttempted, ApplyAttempted} ==> owner.Some?)
    requires n.state in {PlanReviewed, Succeeded, Uncertain} ==>
               owner.Some? && owner == w.owners[|w.owners| - 1] && Durable(w).state in {PlanAttempted, ApplyAttempted}
    ensures var g := Commit(w, n, a, owner);
            && History(g.intent, g.history, g.actions) && Extends(w, g) && AllConcluded(g.history, g.owners)
  {
    hide Perform, Holds, EffectsOwned;
    var g := Commit(w, n, a, owner);
    assert g.history[0] == w.history[0];
    forall k: nat | k < |g.history| ensures Concluded(g.history, g.owners, k) {
      if k < |w.history| { assert Concluded(w.history, w.owners, k); }
    }
  }

  /** The rest of the invariant, for a step that moves one run and starts no effect. */
  lemma MoveKeeps(w: World, g: World, who: nat)
    requires Inv(w) && Extends(w, g) && History(g.intent, g.history, g.actions)
    requires AllConcluded(g.history, g.owners) && LateSound(g)
    requires |g.runs| == |w.runs| && (forall i: nat :: i < |w.runs| && i != who ==> g.runs[i] == w.runs[i])
    requires who < |w.runs| ==> g.runs[who].kind == w.runs[who].kind && Holds(g, who, g.runs[who])
    requires who < |w.runs| && (g.runs[who].pc.Start? || g.runs[who].pc.Claiming? || g.runs[who].pc.Acting?)
             ==> w.runs[who].pc.Start? || w.runs[who].pc.Claiming? || w.runs[who].pc.Acting?
    requires g.planEffects == w.planEffects && g.applyEffects == w.applyEffects
    ensures Inv(g)
  {
    hide Perform, Holds, AllConcluded, History;
    forall i: nat | i < |g.runs| ensures Holds(g, i, g.runs[i]) {
      if i != who { HoldsLater(w, g, i, w.runs[i]); }
    }
    forall k | 0 <= k < |g.planEffects| ensures EffectOwned(g, g.planEffects[k], true) {
      EffectOwnedLater(w, g, g.planEffects[k], true);
    }
    forall k | 0 <= k < |g.applyEffects| ensures EffectOwned(g, g.applyEffects[k], false) {
      EffectOwnedLater(w, g, g.applyEffects[k], false);
    }
  }

  lemma StepInv(w: World, s: Step)
    requires |w.history| > 0 && Inv(w)
    ensures Inv(Next(w, s)) && |Next(w, s).runs| == |w.runs| && Next(w, s).intent == w.intent
  {
    match s
    case Elsewhere(action) =>
      var g := Next(w, s);
      if g != w {
        var n := Perform(w.intent, Durable(w), action).value;
        assert n.state == Revoked;
        hide Perform;
        CommitKeeps(w, n, action, None);
        LateSoundLater(w, g);
        MoveKeeps(w, g, |w.runs|);
      }
    case Arrival(k) =>
      if k < |w.late| {
        ArrivalInv(w, k);
      }
    case By(who, e) =>
      if who < |w.runs| {
        match w.runs[who].pc
        case Start => StartInv(w, who, e);
        case Claiming(_, _, _) => ClaimingInv(w, who, e);
        case Acting(_) => ActingInv(w, who, e);
        case Finishing(_, _, _) => FinishingInv(w, who, e);
        case Checking(_, _, _) => CheckingInv(w, who, e);
        case Losing(_, _, _) => LosingInv(w, who, e);
        case Returned(_) =>
        case GaveUp =>
      }
  }

  lemma StartInv(w: World, who: nat, e: Event)
    requires |w.history| > 0 && Inv(w) && who < |w.runs| && w.runs[who].pc.Start?
    ensures Inv(Next(w, By(who, e)))
  {
    var g := Next(w, By(who, e));
    if g != w {
      ClaimStates(w.intent, Durable(w), w.runs[who].kind, e.at);
      hide Perform;
      MoveKeeps(w, g, who);
    }
  }

  lemma ClaimStates(i: Intent, l: Ledger, k: Kind, at: int)
    ensures var r := Perform(i, l, ClaimOf(k, at)); r.Ok? ==> ClaimState(k, r.value)
  {
  }

  /** One conditional put of a run: what it may change, and what an answer proves. */
  lemma PutKeeps(w: World, who: nat, expected: Ledger, n: Ledger, a: Action, e: Event)
    requires |w.history| > 0 && Inv(w) && e.Write? && RequestSound(w, Request(who, expected, n, a))
    ensures var (g, ok) := Put(w, who, expected, n, a, e);
            && History(g.intent, g.history, g.actions) && Extends(w, g) && AllConcluded(g.history, g.owners)
            && g == w.(history := g.history, actions := g.actions, owners := g.owners, late := g.late) && LateSound(g)
            && (ok ==> n in g.history && OwnsClaim(g, who, n))
  {
    hide Perform, History, Holds, EffectsOwned, OwnsClaim, AllConcluded, LateSound, Deliver;
    var r := Request(who, expected, n, a);
    if e.delivered {
      DeliveryKeeps(w, r);
    } else {
      SameExtends(w);
      OneMoreLate(w, r);
    }
  }

  lemma OneMoreLate(w: World, r: Request)
    requires LateSound(w) && RequestSound(w, r)
    ensures LateSound(w.(late := w.late + [r]))
  {
    hide Perform;
    var g := w.(late := w.late + [r]);
    forall k | 0 <= k < |g.late| ensures RequestSound(g, g.late[k]) {
      if k < |w.late| { assert RequestSound(w, w.late[k]); }
      OwnsSame(w, g, g.late[k].who, g.late[k].expected);
    }
  }

  lemma DeliveryKeeps(w: World, r: Request)
    requires |w.history| > 0 && Inv(w) && RequestSound(w, r)
    ensures var g := Deliver(w, r);
            && History(g.intent, g.history, g.actions) && Extends(w, g) && AllConcluded(g.history, g.owners)
            && g == w.(history := g.history, actions := g.actions, owners := g.owners) && LateSound(g)
            && (Durable(w) == r.expected ==> r.next in g.history && OwnsClaim(g, r.who, r.next))
  {
    hide Perform, History, Holds, EffectsOwned, OwnsClaim, AllConcluded, LateSound;
    if Durable(w) == r.expected {
      if r.next.state in {PlanReviewed, Succeeded, Uncertain} { OwnerOfDurable(w, r.who); }
      CommitKeeps(w, r.next, r.action, Some(r.who));
      Appended(w, r.next, r.action, r.who);
      LateSoundLater(w, Deliver(w, r));
    } else {
      SameExtends(w);
    }
  }

  /** A request that arrives late commits over the expected ledger or not at all, and
      moves no run. */
  lemma ArrivalInv(w: World, k: nat)
    requires |w.history| > 0 && Inv(w) && k < |w.late|
    ensures Inv(Next(w, Arrival(k)))
  {
    hide Perform, History, Holds, EffectsOwned, OwnsClaim, AllConcluded, Deliver;
    assert RequestSound(w, w.late[k]);
    DeliveryKeeps(w, w.late[k]);
    MoveKeeps(w, Deliver(w, w.late[k]), |w.runs|);
  }

  lemma Appended(w: World, n: Ledger, a: Action, who: nat)
    requires |w.owners| == |w.history|
    ensures var g := Commit(w, n, a, Some(who)); n in g.history && OwnsClaim(g, who, n)
  {
    var g := Commit(w, n, a, Some(who));
    assert g.history[|w.history|] == n && g.owners[|w.history|] == Some(who);
  }

  lemma SameExtends(w: World)
    requires Inv(w)
    ensures Extends(w, w) && |w.owners| == |w.history|
    ensures forall late :: Extends(w, w.(late := late))
  {
  }

  lemma ClaimingInv(w: World, who: nat, e: Event)
    requires |w.history| > 0 && Inv(w) && who < |w.runs| && w.runs[who].pc.Claiming?
    ensures Inv(Next(w, By(who, e)))
  {
    var g := Next(w, By(who, e));
    if g != w {
      var pc := w.runs[who].pc;
      assert Holds(w, who, w.runs[who]);
      hide Perform, History, OwnsClaim, AllConcluded, EffectsOwned, Put;
      PutKeeps(w, who, pc.current, pc.claimed, pc.claim, e);
      OwnsSame(Put(w, who, pc.current, pc.claimed, pc.claim, e).0, g, who, pc.claimed);
      LateSame(Put(w, who, pc.current, pc.claimed, pc.claim, e).0, g);
      MoveKeeps(w, g, who);
    }
  }

  lemma OwnsSame(w: World, g: World, who: nat, l: Ledger)
    requires g.history == w.history && g.owners == w.owners
    ensures OwnsClaim(w, who, l) == OwnsClaim(g, who, l)
  {
  }

  lemma LateSame(w: World, g: World)
    requires g.history == w.history && g.owners == w.owners && g.intent == w.intent && g.late == w.late && LateSound(w)
    ensures LateSound(g)
  {
    forall k | 0 <= k < |g.late| ensures RequestSound(g, g.late[k]) {
      assert RequestSound(w, w.late[k]);
    }
  }

  lemma GivingHolds(w: World, who: nat, k: Kind, claimed: Ledger, at: int)
    requires OwnsClaim(w, who, claimed)
    ensures Holds(w, who, Run(k, Giving(w.intent, claimed, at)))
  {
  }

  lemma ConcludingHolds(w: World, who: nat, k: Kind, claimed: Ledger, e: Effect, at: int, failedAt: int)
    requires OwnsClaim(w, who, claimed) && EffectStarted(w, who, k)
    ensures Holds(w, who, Run(k, Concluding(w.intent, k, claimed, e, at, failedAt)))
    ensures var pc := Concluding(w.intent, k, claimed, e, at, failedAt); !pc.Start? && !pc.Claiming? && !pc.Acting?
  {
    GivingHolds(w, who, k, claimed, failedAt);
  }

  lemma ActingInv(w: World, who: nat, e: Event)
    requires |w.history| > 0 && Inv(w) && who < |w.runs| && w.runs[who].pc.Acting?
    ensures Inv(Next(w, By(who, e)))
  {
    hide Perform;
    var g := Next(w, By(who, e));
    if g != w {
      var r := w.runs[who];
      assert Holds(w, who, r);
      var mid := if r.kind.PlanRun? then w.(planEffects := w.planEffects + [who]) else w.(applyEffects := w.applyEffects + [who]);
      assert Extends(w, mid) && Extends(w, g);
      OwnsLater(w, g, who, r.pc.claimed);
      assert EffectStarted(g, who, r.kind) by {
        if r.kind.PlanRun? { assert g.planEffects[|w.planEffects|] == who; } else { assert g.applyEffects[|w.applyEffects|] == who; }
      }
      ConcludingHolds(g, who, r.kind, r.pc.claimed, e.effect, e.at, e.failedAt);
      assert EffectOwned(g, who, r.kind.PlanRun?);
      forall i: nat | i < |g.runs| ensures Holds(g, i, g.runs[i]) {
        if i != who { HoldsLater(w, g, i, w.runs[i]); }
      }
      EffectsAfterAct(w, g, who, w.planEffects, g.planEffects, true);
      EffectsAfterAct(w, g, who, w.applyEffects, g.applyEffects, false);
    }
  }

  lemma EffectsAfterAct(w: World, g: World, who: nat, before: seq<nat>, after: seq<nat>, plan: bool)
    requires Extends(w, g) && who < |w.runs| == |g.runs| && w.runs[who].pc.Acting? && EffectsOwned(w, before, plan)
    requires forall i: nat :: i < |w.runs| && i != who ==> g.runs[i] == w.runs[i]
    requires after == before || (after == before + [who] && EffectOwned(g, who, plan))
    ensures EffectsOwned(g, after, plan)
  {
    hide OwnsClaim;
    forall k | 0 <= k < |after| ensures EffectOwned(g, after[k], plan) {
      if k < |before| {
        assert EffectOwned(w, before[k], plan);
        EffectOwnedLater(w, g, before[k], plan);
      }
    }
    assert forall k :: 0 <= k < |before| ==> EffectOwned(w, before[k], plan);
    assert forall k :: 0 <= k < |before| ==> after[k] == before[k];
  }

  /** The durable ledger is this run's claim, so this run owns the last commit. */
  lemma OwnerOfDurable(w: World, who: nat)
    requires Inv(w) && |w.history| > 0 && OwnsClaim(w, who, Durable(w))
    ensures w.owners[|w.owners| - 1] == Some(who)
  {
    hide Perform, Holds, EffectsOwned, Concluded;
    var k :| 0 <= k < |w.history| && w.history[k] == Durable(w) && w.owners[k] == Some(who);
    ClaimsOnce(w.intent, w.history, w.actions, k, |w.history| - 1);
  }

  lemma ConclusionsFollowClaims(i: Intent, l: Ledger, a: Action, n: Ledger)
    requires Perform(i, l, a) == Ok(n) && n.state in {PlanReviewed, Succeeded, Uncertain}
    ensures l.state in {PlanAttempted, ApplyAttempted}
  {
    hide IsDigest, ValidLedger;
  }

  lemma FinishingInv(w: World, who: nat, e: Event)
    requires |w.history| > 0 && Inv(w) && who < |w.runs| && w.runs[who].pc.Finishing?
    ensures Inv(Next(w, By(who, e)))
  {
    hide Perform, History, OwnsClaim, AllConcluded, EffectsOwned, Put;
    var g := Next(w, By(who, e));
    if g != w {
      var pc := w.runs[who].pc;
      assert Holds(w, who, w.runs[who]);
      ConclusionsFollowClaims(w.intent, pc.claimed, pc.finish, pc.final);
      PutKeeps(w, who, pc.claimed, pc.final, pc.finish, e);
      OwnsLater(w, g, who, pc.claimed);
      LateSame(Put(w, who, pc.claimed, pc.final, pc.finish, e).0, g);
      MoveKeeps(w, g, who);
    }
  }

  lemma CheckingInv(w: World, who: nat, e: Event)
    requires |w.history| > 0 && Inv(w) && who < |w.runs| && w.runs[who].pc.Checking?
    ensures Inv(Next(w, By(who, e)))
  {
    hide Perform;
    var g := Next(w, By(who, e));
    if g != w {
      var pc := w.runs[who].pc;
      assert Holds(w, who, w.runs[who]);
      GivingHolds(w, who, w.runs[who].kind, pc.claimed, pc.finish.at);
      assert Extends(w, g);
      assert Holds(w, who, g.runs[who]);
      HoldsLater(w, g, who, g.runs[who]);
      MoveKeeps(w, g, who);
    }
  }

  lemma LosingInv(w: World, who: nat, e: Event)
    requires |w.history| > 0 && Inv(w) && who < |w.runs| && w.runs[who].pc.Losing?
    ensures Inv(Next(w, By(who, e)))
  {
    hide Perform, History, OwnsClaim, AllConcluded, EffectsOwned, Put;
    var g := Next(w, By(who, e));
    if g != w {
      var pc := w.runs[who].pc;
      assert Holds(w, who, w.runs[who]);
      ConclusionsFollowClaims(w.intent, pc.claimed, pc.loss, pc.lost);
      PutKeeps(w, who, pc.claimed, pc.lost, pc.loss, e);
      LateSame(Put(w, who, pc.claimed, pc.lost, pc.loss, e).0, g);
      MoveKeeps(w, g, who);
    }
  }

  lemma {:induction false} RunInv(w: World, steps: seq<Step>)
    requires |w.history| > 0 && Inv(w)
    ensures Inv(RunAll(w, steps)) && |RunAll(w, steps).runs| == |w.runs| && RunAll(w, steps).intent == w.intent
  {
    hide Inv, Next;
    if steps != [] {
      RunInv(w, steps[..|steps| - 1]);
      StepInv(RunAll(w, steps[..|steps| - 1]), steps[|steps| - 1]);
    }
  }

  lemma InitialInv(i: Intent, createdAt: int, first: Ledger, runs: seq<Run>)
    requires BuildLedger(i, createdAt) == Ok(first) && forall r :: r in runs ==> r.pc == Start
    ensures Inv(Initial(i, first, runs))
  {
    assert first.state == Prepared;
  }

  // ---------------------------------------------------------------- main results

  /** Two runs that started the same effect own the same claim, so they are one run. */
  lemma OneEffect(w: World, effects: seq<nat>, plan: bool)
    requires Inv(w) && EffectsOwned(w, effects, plan)
    ensures |effects| <= 1
  {
    hide Perform, Holds, Concluded;
    if |effects| > 1 {
      assert EffectOwned(w, effects[0], plan) && EffectOwned(w, effects[1], plan);
      var l :| OwnsClaim(w, effects[0], l) && ClaimState(w.runs[effects[0]].kind, l);
      var m :| OwnsClaim(w, effects[1], m) && ClaimState(w.runs[effects[1]].kind, m);
      var i :| 0 <= i < |w.history| && w.history[i] == l && w.owners[i] == Some(effects[0]);
      var j :| 0 <= j < |w.history| && w.history[j] == m && w.owners[j] == Some(effects[1]);
      ClaimsOnce(w.intent, w.history, w.actions, i, j);
      assert false;
    }
  }

  /** Over every interleaving and every pattern of lost requests and replies, the Plan
      effect and the Apply effect of an exception each start at most once. */
  lemma EffectsAtMostOnce(i: Intent, createdAt: int, first: Ledger, runs: seq<Run>, steps: seq<Step>)
    requires BuildLedger(i, createdAt) == Ok(first) && forall r :: r in runs ==> r.pc == Start
    ensures |RunAll(Initial(i, first, runs), steps).planEffects| <= 1
    ensures |RunAll(Initial(i, first, runs), steps).applyEffects| <= 1
  {
    InitialInv(i, createdAt, first, runs);
    RunInv(Initial(i, first, runs), steps);
    var w := RunAll(Initial(i, first, runs), steps);
    OneEffect(w, w.planEffects, true);
    OneEffect(w, w.applyEffects, false);
  }

  /** A run returns normally only with a committed final ledger, after it alone started its effect. */
  lemma NormalReturnIsDurable(i: Intent, createdAt: int, first: Ledger, runs: seq<Run>, steps: seq<Step>, who: nat)
    requires BuildLedger(i, createdAt) == Ok(first) && forall r :: r in runs ==> r.pc == Start
    requires who < |RunAll(Initial(i, first, runs), steps).runs|
    requires RunAll(Initial(i, first, runs), steps).runs[who].pc.Returned?
    ensures var w := RunAll(Initial(i, first, runs), steps); var r := w.runs[who];
            && r.pc.final in w.history
            && r.pc.final.state == (if r.kind.PlanRun? then PlanReviewed else Succeeded)
            && (if r.kind.PlanRun? then w.planEffects == [who] else w.applyEffects == [who])
  {
    InitialInv(i, createdAt, first, runs);
    RunInv(Initial(i, first, runs), steps);
    EffectsAtMostOnce(i, createdAt, first, runs, steps);
    var w := RunAll(Initial(i, first, runs), steps);
    ReturnedHolds(w, who);
    hide RunAll, Inv;
    SoleElement(w.planEffects, who);
    SoleElement(w.applyEffects, who);
  }

  lemma ReturnedHolds(w: World, who: nat)
    requires Inv(w) && who < |w.runs| && w.runs[who].pc.Returned?
    ensures var r := w.runs[who];
            && r.pc.final in w.history && EffectStarted(w, who, r.kind)
            && r.pc.final.state == (if r.kind.PlanRun? then PlanReviewed else Succeeded)
  {
    hide Perform, History, AllConcluded, EffectsOwned;
    assert Holds(w, who, w.runs[who]);
  }

  lemma SoleElement(effects: seq<nat>, who: nat)
    requires |effects| <= 1
    ensures who in effects ==> effects == [who]
  {
  }

  /** After a claim the durable ledger is the claim itself, or what the claiming run
      concluded over it: reviewed, succeeded or UNCERTAIN. It is never PREPARED again,
      and the claimed effect is never claimable again. */
  lemma ClaimIsFinal(i: Intent, createdAt: int, first: Ledger, runs: seq<Run>, steps: seq<Step>, k: nat)
    requires BuildLedger(i, createdAt) == Ok(first) && forall r :: r in runs ==> r.pc == Start
    requires var w := RunAll(Initial(i, first, runs), steps);
             k < |w.history| && w.history[k].state in {PlanAttempted, ApplyAttempted}
    ensures var w := RunAll(Initial(i, first, runs), steps);
            && |w.owners| == |w.history| && w.owners[k].Some?
            && (k + 1 < |w.history| ==>
                  w.owners[k + 1] == w.owners[k] && w.history[k + 1].state in {PlanReviewed, Succeeded, Uncertain})
            && (forall m :: k < m < |w.history| ==> w.history[m].state != Prepared && w.history[m].state != w.history[k].state)
  {
    hide Perform, BuildLedger, RunAll;
    InitialInv(i, createdAt, first, runs);
    RunInv(Initial(i, first, runs), steps);
    var w := RunAll(Initial(i, first, runs), steps);
    assert Concluded(w.history, w.owners, k);
    forall m | k < m < |w.history| ensures w.history[m].state != Prepared && w.history[m].state != w.history[k].state {
      ClaimsOnce(w.intent, w.history, w.actions, k, m);
      RunKeeps(w.intent, w.history, w.actions, m);
    }
    if k + 1 < |w.history| {
      assert Perform(w.intent, w.history[k], w.actions[k]) == Ok(w.history[k + 1]);
      AfterClaim(w.intent, w.history[k], w.actions[k], w.history[k + 1]);
      assert Concluded(w.history, w.owners, k + 1);
    }
  }

  lemma AfterClaim(i: Intent, l: Ledger, a: Action, n: Ledger)
    requires l.state in {PlanAttempted, ApplyAttempted} && Perform(i, l, a) == Ok(n)
    ensures n.state in {PlanReviewed, Succeeded, Failed, Uncertain}
  {
    hide IsDigest, ChangeSetOf, ValidIntent;
  }

  // ---------------------------------------------------------------- what the steps tell

  /** At step m this run, holding its claim, starts its effect, which comes back like this. */
  ghost predicate ActedAt(w: World, steps: seq<Step>, m: nat, who: nat, effect: Effect, at: int)
    requires |w.history| > 0
  {
    && m < |steps| && steps[m].By? && steps[m].who == who && steps[m].event.Act? && steps[m].event.effect == effect && steps[m].event.at == at
    && var before := RunAll(w, steps[..m]); who < |before.runs| && before.runs[who].pc.Acting?
  }

  ghost predicate Acted(w: World, steps: seq<Step>, who: nat)
    requires |w.history| > 0
  {
    exists m: nat, effect: Effect, at: int :: ActedAt(w, steps, m, who, effect, at)
  }

  /** The conclusion says what came back, and when. */
  predicate Told(effect: Effect, at: int, l: Ledger) {
    && l.updatedAt == ToSecond(at)
    && (l.state == PlanReviewed ==>
          effect.Reviewed? && l.changeSet == Some(effect.changeSet)
          && l.planRecord == Some(effect.record) && l.exception == Some(effect.exception))
    && (l.state == Succeeded ==> effect.Applied?)
  }

  ghost predicate HasEffect(w: World, steps: seq<Step>, who: nat, l: Ledger)
    requires |w.history| > 0
  {
    exists m: nat, effect: Effect, at: int :: ActedAt(w, steps, m, who, effect, at) && Told(effect, at, l)
  }

  lemma ActedBefore(w: World, steps: seq<Step>, m: nat, who: nat, effect: Effect, at: int)
    requires |w.history| > 0 && steps != [] && m < |steps| - 1
    ensures ActedAt(w, steps[..|steps| - 1], m, who, effect, at) <==> ActedAt(w, steps, m, who, effect, at)
  {
    assert steps[..|steps| - 1][..m] == steps[..m];
  }

  lemma WithinSteps(w: World, steps: seq<Step>, m: nat, who: nat, effect: Effect, at: int)
    requires |w.history| > 0 && ActedAt(w, steps, m, who, effect, at)
    ensures m < |steps|
  {
  }

  lemma EffectStays(w: World, steps: seq<Step>, who: nat, l: Ledger)
    requires |w.history| > 0 && steps != [] && HasEffect(w, steps[..|steps| - 1], who, l)
    ensures HasEffect(w, steps, who, l)
  {
    hide ActedAt, Told;
    var m: nat, effect: Effect, at: int :| ActedAt(w, steps[..|steps| - 1], m, who, effect, at) && Told(effect, at, l);
    WithinSteps(w, steps[..|steps| - 1], m, who, effect, at);
    ActedBefore(w, steps, m, who, effect, at);
  }

  /** In this step the run starts its effect. */
  predicate Acts(w: World, s: Step, who: nat) {
    s.By? && s.who == who && who < |w.runs| && w.runs[who].pc.Acting? && s.event.Act?
  }

  lemma ActedLast(w: World, steps: seq<Step>, who: nat)
    requires |w.history| > 0 && steps != []
    ensures Acted(w, steps, who) <==>
              Acted(w, steps[..|steps| - 1], who) || Acts(RunAll(w, steps[..|steps| - 1]), steps[|steps| - 1], who)
  {
    hide RunAll, ActedAt;
    var n, front := |steps| - 1, steps[..|steps| - 1];
    if Acted(w, steps, who) {
      var m: nat, effect: Effect, at: int :| ActedAt(w, steps, m, who, effect, at);
      WithinSteps(w, steps, m, who, effect, at);
      if m < n {
        ActedBefore(w, steps, m, who, effect, at);
      } else {
        ActedNow(w, steps, who, effect, at);
      }
    }
    if Acted(w, front, who) {
      var m: nat, effect: Effect, at: int :| ActedAt(w, front, m, who, effect, at);
      WithinSteps(w, front, m, who, effect, at);
      ActedBefore(w, steps, m, who, effect, at);
    }
    if Acts(RunAll(w, front), steps[n], who) {
      ActedNow(w, steps, who, steps[n].event.effect, steps[n].event.at);
    }
  }

  lemma ActedNow(w: World, steps: seq<Step>, who: nat, effect: Effect, at: int)
    requires |w.history| > 0 && steps != []
    ensures var s := steps[|steps| - 1];
            ActedAt(w, steps, |steps| - 1, who, effect, at)
            <==> Acts(RunAll(w, steps[..|steps| - 1]), s, who) && s.event.effect == effect && s.event.at == at
  {
    hide RunAll;
  }

  /** One step: who starts an effect. */
  lemma StepStarts(w: World, s: Step, who: nat)
    requires |w.history| > 0 && who < |w.runs|
    ensures var g := Next(w, s);
            && |g.runs| == |w.runs| && g.runs[who].kind == w.runs[who].kind
            && (who in g.planEffects <==> who in w.planEffects || (Acts(w, s, who) && w.runs[who].kind.PlanRun?))
            && (who in g.applyEffects <==> who in w.applyEffects || (Acts(w, s, who) && w.runs[who].kind.ApplyRun?))
  {
    hide Perform, Concluding, Giving, Put;
    if s.By? && s.who < |w.runs| && s.event.Write? {
      match w.runs[s.who].pc
      case Claiming(current, claim, claimed) => PutKeepsRuns(w, s.who, current, claimed, claim, s.event);
      case Finishing(claimed, finish, final) => PutKeepsRuns(w, s.who, claimed, final, finish, s.event);
      case Losing(claimed, loss, lost) => PutKeepsRuns(w, s.who, claimed, lost, loss, s.event);
      case _ =>
    }
  }

  /** The runs that are listed are exactly those that started their effect in some step. */
  lemma {:induction false} EffectsAreSteps(w: World, steps: seq<Step>, who: nat)
    requires |w.history| > 0 && who < |w.runs| && who !in w.planEffects && who !in w.applyEffects
    ensures var g := RunAll(w, steps);
            && |g.runs| == |w.runs| && g.runs[who].kind == w.runs[who].kind
            && (who in g.planEffects <==> Acted(w, steps, who) && w.runs[who].kind.PlanRun?)
            && (who in g.applyEffects <==> Acted(w, steps, who) && w.runs[who].kind.ApplyRun?)
  {
    hide Next, Acted, Acts;
    if steps != [] {
      EffectsAreSteps(w, steps[..|steps| - 1], who);
      StepStarts(RunAll(w, steps[..|steps| - 1]), steps[|steps| - 1], who);
      ActedLast(w, steps, who);
    } else {
      NotYetActed(w, who);
    }
  }

  lemma NotYetActed(w: World, who: nat)
    requires |w.history| > 0
    ensures !Acted(w, [], who)
  {
  }

  ghost predicate CommittedBy(g: World, k: nat, who: nat, l: Ledger) {
    k < |g.history| && k < |g.owners| && g.history[k] == l && g.owners[k] == Some(who)
  }

  predicate ConcludesIn(g: World, who: nat, l: Ledger) {
    who < |g.runs| && (g.runs[who].pc.Finishing? || g.runs[who].pc.Checking?) && g.runs[who].pc.final == l
  }

  /** A conclusion of this run is committed, on its way, or about to be sent. */
  ghost predicate Concludes(g: World, who: nat, l: Ledger) {
    && l.state in {PlanReviewed, Succeeded}
    && ((exists k: nat :: CommittedBy(g, k, who, l)) || (exists r :: r in g.late && r.who == who && r.next == l) || ConcludesIn(g, who, l))
  }

  lemma WorksOnlyAuthorized(i: Intent, l: Ledger, a: Action)
    requires Perform(i, l, a).Ok?
    ensures Authorized(i, l)
  {
    hide ValidIntent, ValidLedger;
  }

  lemma ConcludingTells(i: Intent, k: Kind, claimed: Ledger, e: Effect, at: int, failedAt: int)
    ensures var pc := Concluding(i, k, claimed, e, at, failedAt);
            && (pc.Finishing? ==> Told(e, at, pc.final)) && !pc.Checking?
  {
    hide Perform;
    var finish := FinishOf(k, e, at);
    if finish.Some? && Perform(i, claimed, finish.value).Ok? {
      WorksOnlyAuthorized(i, claimed, finish.value);
      StepWrites(i, claimed, finish.value, Perform(i, claimed, finish.value).value);
    }
  }

  lemma PutAdds(w: World, sender: nat, expected: Ledger, n: Ledger, a: Action, e: Event, who: nat, l: Ledger)
    requires |w.history| > 0 && |w.owners| == |w.history| && e.Write?
    requires var g := Put(w, sender, expected, n, a, e).0;
             (exists k: nat :: CommittedBy(g, k, who, l)) || (exists r :: r in g.late && r.who == who && r.next == l)
    ensures || (exists k: nat :: CommittedBy(w, k, who, l)) || (exists r :: r in w.late && r.who == who && r.next == l)
            || (who == sender && l == n)
  {
    var g := Put(w, sender, expected, n, a, e).0;
    if k: nat :| CommittedBy(g, k, who, l) {
      if k < |w.history| { assert CommittedBy(w, k, who, l); }
    }
  }

  lemma SameConcludes(w: World, g: World, who: nat, l: Ledger)
    requires |w.owners| == |w.history| && Concludes(g, who, l)
    requires g.late == w.late && (ConcludesIn(g, who, l) ==> ConcludesIn(w, who, l))
    requires forall k: nat :: CommittedBy(g, k, who, l) ==> CommittedBy(w, k, who, l) || exists r :: r in w.late && r.who == who && r.next == l
    ensures Concludes(w, who, l)
  {
  }

  /** A conclusion that is there after a step was there before, or this step tells it. */
  lemma StepConcludes(w: World, s: Step, who: nat, l: Ledger)
    requires |w.history| > 0 && Inv(w) && Concludes(Next(w, s), who, l)
    ensures Concludes(w, who, l) || (Acts(w, s, who) && Told(s.event.effect, s.event.at, l))
  {
    hide Perform, Inv, Put, Told, Concluding, Giving;
    Paired(w);
    match s {
      case Elsewhere(action) => SameConcludes(w, Next(w, s), who, l);
      case Arrival(k) => SameConcludes(w, Next(w, s), who, l);
      case By(i, e) => if i < |w.runs| { RunConcludes(w, i, e, who, l); }
    }
  }

  lemma Paired(w: World)
    requires Inv(w)
    ensures |w.owners| == |w.history|
  {
  }

  lemma RunHolds(w: World, who: nat)
    requires Inv(w) && who < |w.runs|
    ensures Holds(w, who, w.runs[who])
  {
  }

  lemma RunConcludes(w: World, i: nat, e: Event, who: nat, l: Ledger)
    requires |w.history| > 0 && Inv(w) && i < |w.runs| && Concludes(Next(w, By(i, e)), who, l)
    ensures Concludes(w, who, l) || (Acts(w, By(i, e), who) && Told(e.effect, e.at, l))
  {
    hide Perform, Inv, Put, Told, Concluding, Giving, OwnsClaim, EffectStarted;
    Paired(w);
    RunHolds(w, i);
    var g, pc := Next(w, By(i, e)), w.runs[i].pc;
    match pc
    case Claiming(current, claim, claimed) => if e.Write? { SentConcludes(w, i, current, claimed, claim, e, who, l); }
    case Finishing(claimed, finish, final) => if e.Write? { SentConcludes(w, i, claimed, final, finish, e, who, l); }
    case Losing(claimed, loss, lost) => if e.Write? { SentConcludes(w, i, claimed, lost, loss, e, who, l); }
    case Acting(claimed) =>
      if e.Act? {
        ConcludingTells(w.intent, w.runs[i].kind, claimed, e.effect, e.at, e.failedAt);
        QuietConcludes(w, g, i, who, l);
      }
    case Checking(claimed, finish, final) =>
      GivingIsNoConclusion(w.intent, claimed, finish.at);
      QuietConcludes(w, g, i, who, l);
    case _ => QuietConcludes(w, g, i, who, l);
  }

  lemma GivingIsNoConclusion(i: Intent, claimed: Ledger, at: int)
    ensures var pc := Giving(i, claimed, at); !pc.Finishing? && !pc.Checking?
  {
  }

  /** A step of run i that sends nothing. */
  lemma QuietConcludes(w: World, g: World, i: nat, who: nat, l: Ledger)
    requires Concludes(g, who, l) && |g.runs| == |w.runs| && i < |w.runs|
    requires g.history == w.history && g.owners == w.owners && g.late == w.late
    requires forall j: nat :: j < |w.runs| && j != i ==> g.runs[j] == w.runs[j]
    ensures Concludes(w, who, l) || (who == i && ConcludesIn(g, i, l))
  {
    if k: nat :| CommittedBy(g, k, who, l) { assert CommittedBy(w, k, who, l); }
  }

  /** A step of run i that sends n. */
  lemma SentConcludes(w: World, i: nat, expected: Ledger, n: Ledger, a: Action, e: Event, who: nat, l: Ledger)
    requires |w.history| > 0 && |w.owners| == |w.history| && i < |w.runs| && e.Write? && Concludes(Next(w, By(i, e)), who, l)
    requires match w.runs[i].pc
             case Claiming(current, claim, claimed) => expected == current && n == claimed && a == claim && n.state !in {PlanReviewed, Succeeded}
             case Finishing(claimed, finish, final) => expected == claimed && n == final && a == finish
             case Losing(claimed, loss, lost) => expected == claimed && n == lost && a == loss && n.state !in {PlanReviewed, Succeeded}
             case _ => false
    ensures Concludes(w, who, l)
  {
    hide Perform, Put;
    var g := Next(w, By(i, e));
    var sent := Put(w, i, expected, n, a, e).0;
    PutKeepsRuns(w, i, expected, n, a, e);
    if (exists k: nat :: CommittedBy(g, k, who, l)) || (exists r :: r in g.late && r.who == who && r.next == l) {
      SameLog(sent, g, who, l);
      PutAdds(w, i, expected, n, a, e, who, l);
    }
  }

  lemma SameLog(w: World, g: World, who: nat, l: Ledger)
    requires g.history == w.history && g.owners == w.owners && g.late == w.late
    ensures (exists k: nat :: CommittedBy(g, k, who, l)) <==> (exists k: nat :: CommittedBy(w, k, who, l))
  {
    if k: nat :| CommittedBy(g, k, who, l) { assert CommittedBy(w, k, who, l); }
    if k: nat :| CommittedBy(w, k, who, l) { assert CommittedBy(g, k, who, l); }
  }

  lemma PutKeepsRuns(w: World, who: nat, expected: Ledger, n: Ledger, a: Action, e: Event)
    requires |w.history| > 0 && e.Write?
    ensures var g := Put(w, who, expected, n, a, e).0;
            g.runs == w.runs && g.planEffects == w.planEffects && g.applyEffects == w.applyEffects
  {
  }

  lemma {:induction false} ConclusionsAreTold(i: Intent, createdAt: int, first: Ledger, runs: seq<Run>, steps: seq<Step>, who: nat, l: Ledger)
    requires BuildLedger(i, createdAt) == Ok(first) && forall r :: r in runs ==> r.pc == Start
    requires Concludes(RunAll(Initial(i, first, runs), steps), who, l)
    ensures HasEffect(Initial(i, first, runs), steps, who, l)
  {
    hide Next, Inv, Concludes, Told, Perform, BuildLedger;
    var w := Initial(i, first, runs);
    InitialInv(i, createdAt, first, runs);
    if steps == [] {
      NothingConcluded(i, first, runs, who, l);
    } else {
      var front, s := steps[..|steps| - 1], steps[|steps| - 1];
      RunInv(w, front);
      StepConcludes(RunAll(w, front), s, who, l);
      if Concludes(RunAll(w, front), who, l) {
        ConclusionsAreTold(i, createdAt, first, runs, front, who, l);
        EffectStays(w, steps, who, l);
      } else {
        assert ActedAt(w, steps, |steps| - 1, who, s.event.effect, s.event.at);
      }
    }
  }

  lemma NothingConcluded(i: Intent, first: Ledger, runs: seq<Run>, who: nat, l: Ledger)
    requires forall r :: r in runs ==> r.pc == Start
    ensures !Concludes(Initial(i, first, runs), who, l)
  {
    if who < |runs| { assert runs[who] in runs; }
  }

  /** Every durable review holds what the effect of the run that committed it came back
      with, both digests in their places, and every durable success is one that the effect
      of its run reported. */
  lemma ConclusionIsTold(i: Intent, createdAt: int, first: Ledger, runs: seq<Run>, steps: seq<Step>, k: nat)
    requires BuildLedger(i, createdAt) == Ok(first) && forall r :: r in runs ==> r.pc == Start
    requires var w := RunAll(Initial(i, first, runs), steps); k < |w.history| && w.history[k].state in {PlanReviewed, Succeeded}
    ensures var w0 := Initial(i, first, runs);
            var w := RunAll(w0, steps);
            && |w.owners| == |w.history| && w.owners[k].Some?
            && exists m: nat, effect: Effect, at: int ::
                 && ActedAt(w0, steps, m, w.owners[k].value, effect, at) && w.history[k].updatedAt == ToSecond(at)
                 && (w.history[k].state == PlanReviewed ==>
                       effect.Reviewed? && w.history[k].changeSet == Some(effect.changeSet)
                       && w.history[k].planRecord == Some(effect.record) && w.history[k].exception == Some(effect.exception))
                 && (w.history[k].state == Succeeded ==> effect.Applied?)
  {
    hide Perform, BuildLedger, RunAll, Next, ActedAt;
    InitialInv(i, createdAt, first, runs);
    RunInv(Initial(i, first, runs), steps);
    var w := RunAll(Initial(i, first, runs), steps);
    OwnedConclusion(w, k);
    var who := w.owners[k].value;
    assert CommittedBy(w, k, who, w.history[k]);
    ConclusionsAreTold(i, createdAt, first, runs, steps, who, w.history[k]);
  }

  lemma OwnedConclusion(w: World, k: nat)
    requires Inv(w) && k < |w.history| && w.history[k].state in {PlanReviewed, Succeeded}
    ensures |w.owners| == |w.history| && w.owners[k].Some?
  {
    assert Concluded(w.history, w.owners, k);
  }

  // ---------------------------------------------------------------- single calls

  /** A request that gets lost commits nothing now, and may commit at any later time exactly
      over the ledger it was made for; the run goes on as after a refusal. */
  lemma LostRequest(w: World, who: nat, answered: bool)
    requires |w.history| > 0 && who < |w.runs|
    requires w.runs[who].pc.Claiming? || w.runs[who].pc.Finishing? || w.runs[who].pc.Losing?
    ensures var g := Next(w, By(who, Write(false, answered)));
            var (expected, n) := match w.runs[who].pc
                                 case Claiming(current, _, claimed) => (current, claimed)
                                 case Finishing(claimed, _, final) => (claimed, final)
                                 case Losing(claimed, _, lost) => (claimed, lost);
            && g.history == w.history && |g.late| == |w.late| + 1
            && g.runs[who].pc == AfterNoAnswer(w.runs[who].pc)
            && Next(g, Arrival(|w.late|)).history == (if Durable(w) == expected then w.history + [n] else w.history)
  {
    hide Perform;
  }

  /** Where a run goes when its write is not answered: a claim is given up without effect, a
      conclusion is looked at again, a loss is not. */
  function AfterNoAnswer(pc: Pc): Pc {
    match pc
    case Finishing(claimed, finish, final) => Checking(claimed, finish, final)
    case _ => GaveUp
  }

  /** A write that is delivered commits exactly over the ledger it was made for. With its
      answer the run goes on; without it, it cannot tell this from a refusal. */
  lemma DeliveredRequest(w: World, who: nat, answered: bool)
    requires |w.history| > 0 && who < |w.runs|
    requires w.runs[who].pc.Claiming? || w.runs[who].pc.Finishing? || w.runs[who].pc.Losing?
    ensures var g := Next(w, By(who, Write(true, answered)));
            var (expected, n) := match w.runs[who].pc
                                 case Claiming(current, _, claimed) => (current, claimed)
                                 case Finishing(claimed, _, final) => (claimed, final)
                                 case Losing(claimed, _, lost) => (claimed, lost);
            && g.history == (if Durable(w) == expected then w.history + [n] else w.history) && g.late == w.late
            && (if answered && Durable(w) == expected
                then g.runs[who].pc == match w.runs[who].pc
                                       case Claiming(_, _, claimed) => Acting(claimed)
                                       case Finishing(_, _, final) => Returned(final)
                                       case _ => GaveUp
                else g.runs[who].pc == AfterNoAnswer(w.runs[who].pc))
  {
    hide Perform;
  }

  /** A run claims only what it was told is durable, and only a ledger that waits for it; a
      run whose readback is not answered returns nothing and writes no more. */
  lemma ReadsDecide(w: World, who: nat, answered: bool, at: int)
    requires |w.history| > 0 && who < |w.runs|
    ensures w.runs[who].pc.Start? ==>
      var g := Next(w, By(who, Read(answered, at)));
      && g == w.(runs := g.runs)
      && match g.runs[who].pc
         case Claiming(current, claim, claimed) =>
           && answered && current == Durable(w) && claimed.version == current.version + 1
           && (current.state, claimed.state) == if w.runs[who].kind.PlanRun? then (Prepared, PlanAttempted) else (PlanReviewed, ApplyAttempted)
         case pc => pc.GaveUp?
    ensures w.runs[who].pc.Checking? ==>
      var g := Next(w, By(who, ReadBack(answered)));
      && g == w.(runs := g.runs)
      && (g.runs[who].pc.Returned? <==> answered && Durable(w) == w.runs[who].pc.final)
      && (g.runs[who].pc.Losing? <==>
            && answered && Durable(w) == w.runs[who].pc.claimed && Durable(w) != w.runs[who].pc.final
            && Perform(w.intent, Durable(w), Conclude(Uncertain, w.runs[who].pc.finish.at)).Ok?)
      && (g.runs[who].pc.Losing? ==> g.runs[who].pc.claimed == Durable(w))
  {
    hide Perform;
    var l := Durable(w);
    if w.runs[who].pc.Start? && Perform(w.intent, l, ClaimOf(w.runs[who].kind, at)).Ok? { ClaimWrites(w.intent, l, w.runs[who].kind, at); }
  }

  lemma ClaimWrites(i: Intent, l: Ledger, k: Kind, at: int)
    requires Perform(i, l, ClaimOf(k, at)).Ok?
    ensures var n := Perform(i, l, ClaimOf(k, at)).value;
            && n.version == l.version + 1
            && (l.state, n.state) == if k.PlanRun? then (Prepared, PlanAttempted) else (PlanReviewed, ApplyAttempted)
  {
    hide ValidLedger, Authorized, ChangeSetOf;
  }

  /** An Apply whose success is refused leaves its claim as it is. */
  lemma RefusedSuccess(w: World, who: nat, at: int, failedAt: int)
    requires |w.history| > 0 && who < |w.runs| && w.runs[who].pc.Acting? && w.runs[who].kind.ApplyRun?
    requires Perform(w.intent, w.runs[who].pc.claimed, Conclude(Succeeded, at)).Err?
    ensures var g := Next(w, By(who, Act(Applied, at, failedAt)));
            g.history == w.history && g.late == w.late && g.runs[who].pc == GaveUp
  {
    hide Perform;
  }

  /** A run whose effect came back unusable never returns normally: a Plan goes on to persist
      its loss, and an Apply whose success is refused leaves its claim standing. */
  lemma UnusableEffect(w: World, who: nat, effect: Effect, at: int, failedAt: int)
    requires |w.history| > 0 && who < |w.runs| && w.runs[who].pc.Acting?
    requires match w.runs[who].kind case PlanRun(_) => !effect.Reviewed? case ApplyRun(_, _) => !effect.Applied?
    ensures var pc, claimed := Next(w, By(who, Act(effect, at, failedAt))).runs[who].pc, w.runs[who].pc.claimed;
            if Perform(w.intent, claimed, Conclude(Uncertain, failedAt)).Ok?
            then pc.Losing? && pc.claimed == claimed && pc.lost == Perform(w.intent, claimed, Conclude(Uncertain, failedAt)).value
            else pc.GaveUp?
  {
    hide Perform;
  }
}
