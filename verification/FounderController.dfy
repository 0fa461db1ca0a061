/** One founder run as it executes: claim, effect, conclusion, and the fallback to
    UNCERTAIN, against a table whose replies may be lost. */
module FounderController {
  import opened Outcomes
  import opened FounderPep
  import opened FounderRuns

  /** What surrounds one call on the table: the steps that others, or earlier requests
      arriving late, commit before it, and how the call goes. */
  datatype Weather = Weather(others: seq<Action>, delivered: bool, answered: bool)

  datatype Failure = NotClaimed | EffectUncertain | ReconciliationRequired | Refused(error: Error)

  ghost predicate Grown(h: seq<Ledger>, g: seq<Ledger>) {
    |h| <= |g| && g[..|h|] == h
  }

  lemma HistoryGrows(i: Intent, h: seq<Ledger>, a: seq<Action>, action: Action, n: Ledger)
    requires History(i, h, a) && Perform(i, h[|h| - 1], action) == Ok(n)
    ensures History(i, h + [n], a + [action])
  {
    assert (h + [n])[0] == h[0];
  }

  /** The ledger item of one exception. Interference and lost messages are scripted. */
  class FounderTable {
    const intent: Intent
    const script: nat -> Weather
    var tick: nat
    var durable: Ledger
    ghost var history: seq<Ledger>
    ghost var actions: seq<Action>
    /** The positions this run committed. */
    ghost var mine: set<nat>

    ghost predicate Valid()
      reads this
    {
      History(intent, history, actions) && durable == history[|history| - 1] && forall k :: k in mine ==> k < |history|
    }

    constructor (intent: Intent, createdAt: int, script: nat -> Weather)
      requires BuildLedger(intent, createdAt).Ok?
      ensures Valid() && this.intent == intent && this.script == script && mine == {} && tick == 0
      ensures history == [BuildLedger(intent, createdAt).value]
    {
      this.intent, this.script := intent, script;
      tick, durable := 0, BuildLedger(intent, createdAt).value;
      history, actions, mine := [BuildLedger(intent, createdAt).value], [], {};
    }

    method Others()
      requires Valid()
      modifies this`durable, this`history, this`actions
      ensures Valid() && Grown(old(history), history)
      ensures script(tick).others == [] ==> history == old(history)
    {
      var steps := script(tick).others;
      var i := 0;
      while i < |steps|
        invariant i <= |steps| && Valid() && Grown(old(history), history)
        invariant i == 0 ==> history == old(history)
      {
        hide Perform, History;
        match Perform(intent, durable, steps[i]) {
          case Ok(next) =>
            HistoryGrows(intent, history, actions, steps[i], next);
            history, actions := history + [next], actions + [steps[i]];
            durable := next;
          case Err(_) =>
        }
        i := i + 1;
      }
    }

    /** Conditional on version, digest, state and both counters, which are one ledger value. */
    method Replace(expected: Ledger, n: Ledger, ghost action: Action) returns (ok: bool)
      requires Valid() && Perform(intent, expected, action) == Ok(n)
      modifies this
      ensures Valid() && Grown(old(history), history) && tick == old(tick) + 1
      ensures mine == old(mine) || (mine == old(mine) + {|history| - 1} && durable == n && |history| > |old(history)|)
      ensures ok ==> mine == old(mine) + {|history| - 1} && durable == n && |history| > |old(history)|
      ensures mine != old(mine) ==> |history| > 1 && history[|history| - 2] == expected
      ensures !script(old(tick)).delivered ==> mine == old(mine)
      ensures ok <==> mine != old(mine) && script(old(tick)).answered
      ensures script(old(tick)) == Weather([], true, true) && old(durable) == expected ==> ok
      ensures script(old(tick)).others == [] ==>
        && (mine != old(mine) <==> script(old(tick)).delivered && old(durable) == expected)
        && durable == if mine != old(mine) then n else old(durable)
    {
      hide Perform, History;
      Others();
      var committed := script(tick).delivered && durable == expected;
      if committed {
        HistoryGrows(intent, history, actions, action, n);
        mine := mine + {|history|};
        history, actions := history + [n], actions + [action];
        durable := n;
      }
      ok := committed && script(tick).answered;
      tick := tick + 1;
    }

    method Get() returns (answer: Option<Ledger>)
      requires Valid()
      modifies this`tick, this`durable, this`history, this`actions
      ensures Valid() && Grown(old(history), history) && tick == old(tick) + 1
      ensures answer.Some? ==> answer.value == durable && durable in history
      ensures answer.Some? <==> script(old(tick)).delivered && script(old(tick)).answered
      ensures script(old(tick)) == Weather([], true, true) ==> answer == Some(old(durable))
      ensures script(old(tick)).others == [] ==> durable == old(durable)
    {
      hide Perform;
      Others();
      answer := if script(tick).delivered && script(tick).answered then Some(durable) else None;
      tick := tick + 1;
    }
  }

  lemma GrownTransitive(h: seq<Ledger>, g: seq<Ledger>, f: seq<Ledger>)
    requires Grown(h, g) && Grown(g, f)
    ensures Grown(h, f)
    ensures forall k :: 0 <= k < |h| ==> f[k] == h[k]
  {
    assert forall k :: 0 <= k < |h| ==> f[k] == g[k] == h[k];
  }

  /** The commits this run has made are its claim and conclusions over its claim. */
  ghost predicate OnlyConclusions(t: FounderTable, before: set<nat>, claimed: Ledger, done: State)
    reads t
    requires t.Valid()
  {
    Conclusions(t.history, before, t.mine, claimed, done)
  }

  /** Each conclusion is the intended one or UNCERTAIN. */
  ghost predicate Conclusions(h: seq<Ledger>, before: set<nat>, mine: set<nat>, claimed: Ledger, done: State) {
    before <= mine && forall k :: k in mine && k !in before ==>
      0 < k < |h| && h[k - 1] == claimed && h[k].state in {done, Uncertain}
  }

  /** What one conditional put over the claim adds is a conclusion. */
  lemma OneConclusion(h: seq<Ledger>, before: set<nat>, mine: set<nat>, claimed: Ledger, n: Ledger)
    requires mine == before || (|h| > 1 && mine == before + {|h| - 1} && h[|h| - 1] == n && h[|h| - 2] == claimed)
    ensures Conclusions(h, before, mine, claimed, n.state)
  {
  }

  lemma NoMore(h: seq<Ledger>, mine: set<nat>, claimed: Ledger)
    ensures Conclusions(h, mine, mine, claimed, Uncertain)
  {
  }

  lemma MoreConclusions(h: seq<Ledger>, g: seq<Ledger>, a: set<nat>, b: set<nat>, c: set<nat>, claimed: Ledger, done: State)
    requires Conclusions(h, a, b, claimed, done) && Grown(h, g) && Conclusions(g, b, c, claimed, Uncertain)
    ensures Conclusions(g, a, c, claimed, done)
  {
  }

  /** Nothing interferes and nothing is lost from this call on. */
  ghost predicate Calm(script: nat -> Weather, from: nat) {
    forall k: nat :: from <= k ==> script(k) == Weather([], true, true)
  }

  lemma StepDiffers(i: Intent, l: Ledger, a: Action, n: Ledger)
    requires Perform(i, l, a) == Ok(n)
    ensures n != l
  {
    hide ValidLedger, Authorized, ChangeSetOf;
    assert n.version == l.version + 1;
  }

  /** Nobody else writes from this call on. */
  ghost predicate Alone(script: nat -> Weather, from: nat) {
    forall k: nat :: from <= k ==> script(k).others == []
  }

  /** A call that is answered at this time. */
  predicate Heard(script: nat -> Weather, k: nat) {
    script(k).delivered && script(k).answered
  }

  /** Give the claim up as UNCERTAIN. This always ends in a failure; the failure is
      EffectUncertain only if UNCERTAIN was durable. */
  method PersistUncertainAfterEffect(t: FounderTable, claimed: Ledger, now: int) returns (failure: Failure)
    requires t.Valid()
    modifies t
    ensures t.Valid() && Grown(old(t.history), t.history) && OnlyConclusions(t, old(t.mine), claimed, Uncertain)
    ensures failure == EffectUncertain ==>
              FinalizeOutcome(t.intent, claimed, Uncertain, now).Ok? && FinalizeOutcome(t.intent, claimed, Uncertain, now).value in t.history
    ensures failure.Refused? <==> FinalizeOutcome(t.intent, claimed, Uncertain, now).Err?
    ensures Calm(t.script, old(t.tick)) && old(t.durable) == claimed && FinalizeOutcome(t.intent, claimed, Uncertain, now).Ok?
            ==> failure == EffectUncertain
    ensures failure.Refused? ==> t.tick == old(t.tick)
    ensures Alone(t.script, old(t.tick)) && old(t.durable) == claimed && !failure.Refused? ==>
      && (failure == EffectUncertain <==>
            t.script(old(t.tick)).delivered && (t.script(old(t.tick)).answered || Heard(t.script, old(t.tick) + 1)))
      && (failure != EffectUncertain ==> failure == ReconciliationRequired)
      && (t.durable != claimed <==> t.script(old(t.tick)).delivered)
  {
    hide Perform, FinalizeOutcome, History;
    var lost := FinalizeOutcome(t.intent, claimed, Uncertain, now);
    if lost.Err? {
      return Refused(lost.error);
    }
    UncertainState(t.intent, claimed, now);
    StepDiffers(t.intent, claimed, Conclude(Uncertain, now), lost.value);
    var ok := t.Replace(claimed, lost.value, Conclude(Uncertain, now));
    if !ok {
      ghost var h := t.history;
      var observed := t.Get();
      return if observed == Some(lost.value) then EffectUncertain else ReconciliationRequired;
    }
    assert t.history[|t.history| - 1] == lost.value;
    return EffectUncertain;
  }

  /** Commit the conclusion of an effect that came back; without an answer, look. */
  method FinalizeAfterEffect(t: FounderTable, claimed: Ledger, final: Ledger, ghost finish: Action, now: int)
    returns (r: Result<Ledger, Failure>)
    requires t.Valid() && Perform(t.intent, claimed, finish) == Ok(final) && final.state in {PlanReviewed, Succeeded}
    modifies t
    ensures t.Valid() && Grown(old(t.history), t.history) && OnlyConclusions(t, old(t.mine), claimed, final.state)
    ensures r.Ok? ==> r.value == final && final in t.history
    ensures r == Err(EffectUncertain) ==> exists l :: l in t.history && l.state == Uncertain
    ensures Calm(t.script, old(t.tick)) && old(t.durable) == claimed ==> r == Ok(final)
    ensures Alone(t.script, old(t.tick)) && old(t.durable) == claimed ==>
      && (r.Ok? <==> t.script(old(t.tick)).delivered && (t.script(old(t.tick)).answered || Heard(t.script, old(t.tick) + 1)))
      && (r == Err(EffectUncertain) <==>
            && !t.script(old(t.tick)).delivered && Heard(t.script, old(t.tick) + 1)
            && FinalizeOutcome(t.intent, claimed, Uncertain, now).Ok? && t.script(old(t.tick) + 2).delivered
            && (t.script(old(t.tick) + 2).answered || Heard(t.script, old(t.tick) + 3)))
    ensures Alone(t.script, old(t.tick)) && old(t.durable) != claimed && old(t.durable) != final ==>
      r == Err(ReconciliationRequired) && t.tick == old(t.tick) + 2 && t.durable == old(t.durable)
  {
    hide Perform, History, FinalizeOutcome, Conclusions, Grown;
    StepDiffers(t.intent, claimed, finish, final);
    var ok := t.Replace(claimed, final, finish);
    ghost var written, mine := t.history, t.mine;
    OneConclusion(t.history, old(t.mine), t.mine, claimed, final);
    if ok {
      assert t.history[|t.history| - 1] == final;
      return Ok(final);
    }
    var observed := t.Get();
    NoMore(t.history, t.mine, claimed);
    MoreConclusions(written, t.history, old(t.mine), mine, t.mine, claimed, final.state);
    GrownTransitive(old(t.history), written, t.history);
    ghost var looked := t.history;
    if observed.None? {
      return Err(ReconciliationRequired);
    } else if observed.value == final {
      return Ok(final);
    } else if observed.value == claimed {
      var failure := PersistUncertainAfterEffect(t, claimed, now);
      MoreConclusions(looked, t.history, old(t.mine), mine, t.mine, claimed, final.state);
      GrownTransitive(old(t.history), looked, t.history);
      if failure == EffectUncertain {
        UncertainState(t.intent, claimed, now);
      }
      return Err(failure);
    }
    return Err(ReconciliationRequired);
  }

  /** The claim of this run was committed by this run. */
  ghost predicate Claimed(t: FounderTable, before: set<nat>, claimed: Ledger)
    reads t
    requires t.Valid()
  {
    exists k :: k in t.mine && k !in before && t.history[k] == claimed
  }

  /** Read the ledger and commit the claim. There is no confirmation by readback: only an
      acknowledged claim lets the run go on. */
  method Claim(t: FounderTable, kind: Kind, now: int) returns (c: Result<Ledger, Failure>)
    requires t.Valid()
    modifies t
    ensures t.Valid() && Grown(old(t.history), t.history) && old(t.mine) <= t.mine
    ensures c.Ok? ==> Claimed(t, old(t.mine), c.value) && t.durable == c.value
    ensures old(t.tick) <= t.tick
    ensures forall k :: k in t.mine && k !in old(t.mine) ==> ClaimState(kind, t.history[k])
    ensures c.Ok? ==> ClaimState(kind, c.value)
    ensures c.Err? ==> c.error != EffectUncertain
    ensures Calm(t.script, old(t.tick)) ==>
              (c.Ok? <==> Perform(t.intent, old(t.durable), ClaimOf(kind, now)).Ok?)
              && (c.Ok? ==> Perform(t.intent, old(t.durable), ClaimOf(kind, now)) == Ok(c.value))
  {
    hide History, Perform, Grown;
    var current := t.Get();
    if current.None? {
      return Err(NotClaimed);
    }
    ghost var h := t.history;
    var claim := Perform(t.intent, current.value, ClaimOf(kind, now));
    if claim.Err? {
      return Err(Refused(claim.error));
    }
    ClaimStates(t.intent, current.value, kind, now);
    var ok := t.Replace(current.value, claim.value, ClaimOf(kind, now));
    GrownTransitive(old(t.history), h, t.history);
    if !ok {
      return Err(NotClaimed);
    }
    assert t.history[|t.history| - 1] == claim.value;
    assert Claimed(t, old(t.mine), claim.value);
    return Ok(claim.value);
  }

  lemma ClaimedLater(h: seq<Ledger>, g: seq<Ledger>, m: set<nat>, n: set<nat>, before: set<nat>, claimed: Ledger)
    requires Grown(h, g) && m <= n && (forall k :: k in m ==> k < |h|)
    requires exists k :: k in m && k !in before && h[k] == claimed
    ensures exists k :: k in n && k !in before && k < |g| && g[k] == claimed
    ensures forall k :: k in m ==> k < |g| && g[k] == h[k]
  {
    GrownTransitive(h, g, g);
    var k :| k in m && k !in before && h[k] == claimed;
    assert g[k] == claimed;
  }

  /** One Plan run. The effect is started only after this run's own claim was committed
      and acknowledged; a normal return means the effect came back within the Plan window
      and its review is durable; in calm weather the outcome is exactly determined. */
  method RunFounderPlanOnce(t: FounderTable, caller: string, now: int, effect: Effect, completedAt: int, failedAt: int)
    returns (r: Result<Ledger, Failure>, invoked: bool)
    requires t.Valid()
    modifies t
    ensures t.Valid() && Grown(old(t.history), t.history)
    ensures invoked ==> exists claimed :: Claimed(t, old(t.mine), claimed) && claimed.state == PlanAttempted
    ensures r.Ok? ==> invoked && effect.Reviewed? && ToSecond(completedAt) < t.intent.planEnd
                      && r.value in t.history && r.value.state == PlanReviewed && r.value.updatedAt == ToSecond(completedAt)
                      && r.value.changeSet == Some(effect.changeSet)
                      && r.value.planRecord == Some(effect.record) && r.value.exception == Some(effect.exception)
    ensures r == Err(EffectUncertain) ==> invoked && exists l :: l in t.history && l.state == Uncertain
    ensures forall k :: k in t.mine && k !in old(t.mine) ==> t.history[k].state in {PlanAttempted, PlanReviewed, Uncertain}
    ensures Calm(t.script, old(t.tick)) ==>
              (invoked <==> ClaimPlan(t.intent, old(t.durable), caller, now).Ok?)
              && (r.Ok? <==>
                    invoked && effect.Reviewed? && FinalizePlan(t.intent, ClaimPlan(t.intent, old(t.durable), caller, now).value,
                        effect.changeSet, effect.record, effect.exception, completedAt).Ok?)
  {
    hide History, FinalizePlan, ClaimPlan, FinalizeOutcome, Grown;
    var claim := Claim(t, PlanRun(caller), now);
    if claim.Err? {
      return Err(claim.error), false;
    }
    invoked := true;
    var claimed := claim.value;
    ghost var h, m := t.history, t.mine;
    var reviewed: Result<Ledger, Error> := Err(WrongState);
    if effect.Reviewed? {
      reviewed := FinalizePlan(t.intent, claimed, effect.changeSet, effect.record, effect.exception, completedAt);
    }
    if reviewed.Ok? {
      ReviewFacts(t.intent, claimed, effect, completedAt);
      r := FinalizeAfterEffect(t, claimed, reviewed.value,
                               PlanReview(effect.changeSet, effect.record, effect.exception, completedAt), completedAt);
    } else {
      var failure := PersistUncertainAfterEffect(t, claimed, failedAt);
      if failure == EffectUncertain {
        UncertainState(t.intent, claimed, failedAt);
      }
      r := Err(failure);
    }
    StillClaimed(t, h, m, old(t.mine), claimed);
    GrownTransitive(old(t.history), h, t.history);
  }

  lemma StillClaimed(t: FounderTable, h: seq<Ledger>, m: set<nat>, before: set<nat>, claimed: Ledger)
    requires t.Valid() && Grown(h, t.history) && m <= t.mine && (forall k :: k in m ==> k < |h|)
    requires exists k :: k in m && k !in before && h[k] == claimed
    ensures Claimed(t, before, claimed)
    ensures forall k :: k in m ==> t.history[k] == h[k]
  {
    ClaimedLater(h, t.history, m, t.mine, before, claimed);
  }

  lemma ReviewFacts(i: Intent, claimed: Ledger, e: Effect, at: int)
    requires e.Reviewed? && FinalizePlan(i, claimed, e.changeSet, e.record, e.exception, at).Ok?
    ensures var n := FinalizePlan(i, claimed, e.changeSet, e.record, e.exception, at).value;
            && n.state == PlanReviewed && n.changeSet == Some(e.changeSet) && ToSecond(at) < i.planEnd && n.updatedAt == ToSecond(at)
            && n.planRecord == Some(e.record) && n.exception == Some(e.exception)
            && Perform(i, claimed, PlanReview(e.changeSet, e.record, e.exception, at)) == Ok(n)
  {
  }

  lemma UncertainState(i: Intent, claimed: Ledger, at: int)
    requires FinalizeOutcome(i, claimed, Uncertain, at).Ok?
    ensures FinalizeOutcome(i, claimed, Uncertain, at).value.state == Uncertain
    ensures Perform(i, claimed, Conclude(Uncertain, at)) == FinalizeOutcome(i, claimed, Uncertain, at)
  {
  }

  /** One Apply run. As for Plan; a normal return means the effect came back and SUCCEEDED is durable. */
  method RunFounderApplyOnce(t: FounderTable, caller: string, changeSet: ChangeSet, now: int, effect: Effect, completedAt: int)
    returns (r: Result<Ledger, Failure>, invoked: bool)
    requires t.Valid()
    modifies t
    ensures t.Valid() && Grown(old(t.history), t.history)
    ensures invoked ==> exists claimed :: Claimed(t, old(t.mine), claimed) && claimed.state == ApplyAttempted
    ensures r.Ok? ==> invoked && effect.Applied? && r.value in t.history && r.value.state == Succeeded
                      && r.value.updatedAt == ToSecond(completedAt) && r.value.changeSet == Some(changeSet)
    ensures r == Err(EffectUncertain) ==> invoked && exists l :: l in t.history && l.state == Uncertain
    ensures forall k :: k in t.mine && k !in old(t.mine) ==> t.history[k].state in {ApplyAttempted, Succeeded, Uncertain}
    ensures Calm(t.script, old(t.tick)) ==>
              (invoked <==> ClaimApply(t.intent, old(t.durable), caller, changeSet, now).Ok?)
              && (r.Ok? <==>
                    invoked && effect.Applied? && FinalizeOutcome(t.intent,
                        ClaimApply(t.intent, old(t.durable), caller, changeSet, now).value, Succeeded, completedAt).Ok?)
  {
    hide History, FinalizePlan, ClaimApply, FinalizeOutcome, Grown;
    var claim := Claim(t, ApplyRun(caller, changeSet), now);
    if claim.Err? {
      return Err(claim.error), false;
    }
    invoked := true;
    var claimed := claim.value;
    ghost var h, m := t.history, t.mine;
    if !effect.Applied? {
      var failure := PersistUncertainAfterEffect(t, claimed, completedAt);
      if failure == EffectUncertain {
        UncertainState(t.intent, claimed, completedAt);
      }
      r := Err(failure);
    } else {
      var terminal := FinalizeOutcome(t.intent, claimed, Succeeded, completedAt);
      if terminal.Err? {
        r := Err(Refused(terminal.error));
      } else {
        SuccessState(t.intent, claimed, completedAt);
        r := FinalizeAfterEffect(t, claimed, terminal.value, Conclude(Succeeded, completedAt), completedAt);
      }
    }
    StillClaimed(t, h, m, old(t.mine), claimed);
    GrownTransitive(old(t.history), h, t.history);
  }

  lemma SuccessState(i: Intent, claimed: Ledger, at: int)
    requires FinalizeOutcome(i, claimed, Succeeded, at).Ok?
    ensures var r := FinalizeOutcome(i, claimed, Succeeded, at);
            && r.value.state == Succeeded && r.value.updatedAt == ToSecond(at) && r.value.changeSet == claimed.changeSet
            && Perform(i, claimed, Conclude(Succeeded, at)) == r
  {
  }
}
