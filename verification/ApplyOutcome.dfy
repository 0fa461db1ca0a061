/** What an apply controller does once its attempt is consumed: run Terraform, persist
    the outcome, and fall back to UNCERTAIN without ever overwriting a success. */
module ApplyOutcome {
  import opened Outcomes
  import opened LedgerEngine
  import opened ConfirmedWrites

  /** What the process meets between winning APPLYING and writing the outcome: whether
      its own checks pass, whether the terminal phase returns normally, and the times
      its clock shows (a clock that raises shows none). */
  datatype Course = Course(checksPass: bool, terraformReturns: bool, finishedAt: Option<int>, failedAt: Option<int>, actionAt: int)

  datatype ApplyError = ReconciliationNeeded | OutcomeUnconfirmed

  /** SUCCESS and RESPONSE_LOST, the two observations the controller reports. */
  function Observation(reported: bool, at: int): Action {
    if reported then Move(Applied, at, NO_SUPPORT.(code := Some(ApplySucceeded)))
    else Move(Uncertain, at, NO_SUPPORT.(code := Some(ResponseLost)))
  }

  function Outcome(applying: Ledger, reported: bool, at: int): (r: Ledger)
    requires applying.status == Applying && ValidDocument(applying)
    ensures Perform(applying, Observation(reported, at)) == Ok(r)
    ensures r == applying.(status := if reported then Applied else Uncertain, version := applying.version + 1,
                           updatedAt := ToSecond(at), outcome := Some(if reported then ApplySucceeded else ResponseLost), evidence := None)
  {
    Perform(applying, Observation(reported, at)).value
  }

  /** The proposal for a success, if the course gets that far. */
  function SuccessOf(applying: Ledger, c: Course): Option<Ledger>
    requires applying.status == Applying && ValidDocument(applying)
  {
    if c.checksPass && c.terraformReturns && c.finishedAt.Some? then Some(Outcome(applying, true, c.finishedAt.value)) else None
  }

  function LossOf(applying: Ledger, c: Course): Ledger
    requires applying.status == Applying && ValidDocument(applying)
  {
    Outcome(applying, false, if c.failedAt.Some? then c.failedAt.value else c.actionAt)
  }

  /** A read at this time gets no answer. */
  ghost predicate Unread(script: nat -> Event, k: nat) {
    !(script(k).delivered && script(k).answered)
  }

  /** Three reads get no answer, and then nothing is lost. */
  ghost predicate NothingRead(script: nat -> Event, from: nat) {
    Clear(script, from + 3) && forall k :: from <= k < from + 3 ==> Unread(script, k)
  }

  /** Something else than what this process found or wrote itself. */
  predicate OutcomeOfOthers(durable: Ledger, applying: Ledger, proposed: Option<Ledger>, c: Course)
    requires applying.status == Applying && ValidDocument(applying)
  {
    durable != applying && Some(durable) != proposed && durable != LossOf(applying, c)
  }

  /** Reread a consumed attempt, at most three times. */
  method ReadAfterError(t: LedgerTable) returns (durable: Option<Ledger>)
    requires t.Valid()
    modifies t`tick, t`durable, t`history, t`actions, t`calls
    ensures t.Valid() && Extends(old(t.history), t.history) && old(t.tick) < t.tick
    ensures durable.Some? ==> durable.value == t.durable && durable.value in t.history
    ensures t.script(old(t.tick)).delivered && t.script(old(t.tick)).answered ==> durable.Some?
    ensures Quiet(t.script, old(t.tick)) ==> t.history == old(t.history)
    ensures |old(t.calls)| <= |t.calls| && t.calls[..|old(t.calls)|] == old(t.calls)
    ensures durable.None? <==> Unread(t.script, t.tick - 1)
    ensures durable.None? ==> t.tick == old(t.tick) + 3
    ensures t.tick <= old(t.tick) + 3 && forall k :: old(t.tick) <= k < t.tick - 1 ==> Unread(t.script, k)
    ensures !Unread(t.script, old(t.tick)) ==> t.calls == old(t.calls) + [Saw(durable)]
  {
    hide History;
    durable := None;
    var tries := 0;
    while tries < 3 && durable.None?
      invariant 0 <= tries <= 3 && (tries == 0 ==> durable.None?) && t.tick == old(t.tick) + tries
      invariant t.Valid() && Extends(old(t.history), t.history)
      invariant durable.Some? ==> durable.value == t.durable && durable.value in t.history
      invariant tries > 0 && t.script(old(t.tick)).delivered && t.script(old(t.tick)).answered ==> durable.Some?
      invariant Quiet(t.script, old(t.tick)) ==> t.history == old(t.history)
      invariant |old(t.calls)| <= |t.calls| && t.calls[..|old(t.calls)|] == old(t.calls)
      invariant forall k :: old(t.tick) <= k < t.tick - 1 ==> Unread(t.script, k)
      invariant tries > 0 ==> (durable.None? <==> Unread(t.script, t.tick - 1))
      invariant !Unread(t.script, old(t.tick)) ==> t.calls == if tries == 0 then old(t.calls) else old(t.calls) + [Saw(durable)]
    {
      durable := t.Get();
      tries := tries + 1;
    }
  }

  /** Everybody is quiet and nothing is lost from this call on. */
  ghost predicate Clear(script: nat -> Event, from: nat) {
    forall k: nat :: from <= k ==> script(k) == CLEAR
  }

  /** Persist UNCERTAIN over the attempt, and if that cannot be confirmed look once more
      at what became durable. */
  method PersistLoss(t: LedgerTable, applying: Ledger, proposed: Option<Ledger>, loss: Ledger, at: int, c: Course)
    returns (r: Result<Ledger, ApplyError>)
    requires t.Valid() && applying in t.history && applying.status == Applying && ValidDocument(applying)
    requires proposed == SuccessOf(applying, c) && loss == LossOf(applying, c) == Outcome(applying, false, at)
    modifies t
    ensures t.Valid() && Extends(old(t.history), t.history)
    ensures r.Ok? ==> proposed == Some(r.value) && CommittedOver(t.history, applying, r.value)
    ensures r == Err(ReconciliationNeeded) ==> CommittedOver(t.history, applying, loss)
    ensures WroteOnly(old(t.mine), t.mine, t.history, loss)
    ensures Clear(t.script, old(t.tick)) && old(t.durable) == applying ==> r == Err(ReconciliationNeeded)
  {
    hide Perform, History, CommittedOver, Follow, Witnessed, Committed, ValidDocument, Extends, WroteOnly;
    var confirmed := ReplaceLedgerConfirmed(t, applying, loss, Observation(false, at));
    ExtendsKeeps(old(t.history), t.history, applying);
    if confirmed.Ok? {
      return Err(ReconciliationNeeded);
    }
    ghost var between := t.history;
    var final := ReadAfterError(t);
    ExtendsKeeps(between, t.history, applying);
    ExtendsAgain(old(t.history), between, t.history);
    WroteLater(old(t.mine), t.mine, between, t.history, loss);
    if proposed.Some? && final == proposed {
      AppearanceIsReplacement(t.history, t.actions, applying, Observation(true, c.finishedAt.value), proposed.value);
      return Ok(proposed.value);
    } else if final == Some(loss) {
      AppearanceIsReplacement(t.history, t.actions, applying, Observation(false, at), loss);
      return Err(ReconciliationNeeded);
    }
    return Err(OutcomeUnconfirmed);
  }

  /** What is left to do when the success is not confirmed, or there is none: look at what
      is durable, and persist the loss unless there is an outcome already. It is persisted
      as well if nothing can be read, and nothing is written over an outcome of others. */
  method AfterError(t: LedgerTable, applying: Ledger, proposed: Option<Ledger>, c: Course) returns (r: Result<Ledger, ApplyError>)
    requires t.Valid() && applying in t.history && applying.status == Applying && ValidDocument(applying)
    requires proposed == SuccessOf(applying, c)
    modifies t
    ensures t.Valid() && Extends(old(t.history), t.history)
    ensures r.Ok? ==> proposed == Some(r.value) && CommittedOver(t.history, applying, r.value)
    ensures r == Err(ReconciliationNeeded) ==> CommittedOver(t.history, applying, LossOf(applying, c))
    ensures WroteOnly(old(t.mine), t.mine, t.history, LossOf(applying, c))
    ensures Clear(t.script, old(t.tick)) && old(t.durable) == applying ==> r == Err(ReconciliationNeeded)
    ensures Quiet(t.script, old(t.tick)) && old(t.durable) == applying && NothingRead(t.script, old(t.tick)) ==>
              r == Err(ReconciliationNeeded)
    ensures Quiet(t.script, old(t.tick)) && !Unread(t.script, old(t.tick)) && OutcomeOfOthers(old(t.durable), applying, proposed, c) ==>
              r == Err(OutcomeUnconfirmed) && t.calls == old(t.calls) + [Saw(Some(old(t.durable)))]
  {
    hide Perform, History, CommittedOver, Follow, Witnessed, Committed, ValidDocument, Outcome, Observation, Extends, WroteOnly;
    var at := if c.failedAt.Some? then c.failedAt.value else c.actionAt;
    var loss := Outcome(applying, false, at);
    ghost var was := t.history;
    var durable := ReadAfterError(t);
    ghost var between := t.history;
    ExtendsKeeps(was, between, applying);
    WroteNothing(t.mine, t.history, loss);
    if proposed.Some? && durable == proposed {
      AppearanceIsReplacement(t.history, t.actions, applying, Observation(true, c.finishedAt.value), proposed.value);
      r := Ok(proposed.value);
    } else if durable == Some(loss) {
      AppearanceIsReplacement(t.history, t.actions, applying, Observation(false, at), loss);
      r := Err(ReconciliationNeeded);
    } else if durable == None || durable == Some(applying) {
      r := PersistLoss(t, applying, proposed, loss, at, c);
      ExtendsAgain(was, between, t.history);
    } else {
      r := Err(OutcomeUnconfirmed);
    }
  }

  /** This ledger settles the attempt with this status and code at this time, and changes
      nothing else but the version. */
  ghost predicate Settles(n: Ledger, applying: Ledger, next: Status, code: Code, at: int) {
    && n.status == next && n.outcome == Some(code) && n.updatedAt == ToSecond(at) && n.version == applying.version + 1
    && n.attempts == applying.attempts && n.approval == applying.approval && n.plan == applying.plan && n.binding == applying.binding
    && n.evidence == None && n.publication == applying.publication
    && n.anchor == applying.anchor && n.reviewer == applying.reviewer && n.authority == applying.authority
  }

  /** The part of run_apply_controller after APPLYING was confirmed.
      A normal return means that the checks passed, that Terraform returned and the clock
      was read, and that APPLIED with the code of a success is durable, committed over this
      attempt. The reconciliation error means UNCERTAIN with the code of a lost response is
      durable, committed over this attempt. Whatever happens, this process commits only an
      outcome of its own attempt, and a success only if Terraform returned. With everybody
      quiet and nothing lost, it returns exactly if Terraform did. */
  method FinishAttempt(t: LedgerTable, applying: Ledger, c: Course) returns (r: Result<Ledger, ApplyError>, invoked: bool)
    requires t.Valid() && applying in t.history && applying.status == Applying && ValidDocument(applying)
    modifies t
    ensures t.Valid() && Extends(old(t.history), t.history)
    ensures invoked <==> c.checksPass
    ensures r.Ok? ==>
              && c.checksPass && c.terraformReturns && c.finishedAt.Some?
              && Settles(r.value, applying, Applied, ApplySucceeded, c.finishedAt.value) && CommittedOver(t.history, applying, r.value)
    ensures r == Err(ReconciliationNeeded) ==>
              exists loss :: CommittedOver(t.history, applying, loss)
                && Settles(loss, applying, Uncertain, ResponseLost, if c.failedAt.Some? then c.failedAt.value else c.actionAt)
    ensures forall k :: k in t.mine && k !in old(t.mine) ==>
              k < |t.history| && (t.history[k].status != Applied ==>
                Settles(t.history[k], applying, Uncertain, ResponseLost, if c.failedAt.Some? then c.failedAt.value else c.actionAt))
    ensures forall k :: k in t.mine && k !in old(t.mine) && t.history[k].status == Applied ==>
              c.checksPass && c.terraformReturns && c.finishedAt.Some?
              && Settles(t.history[k], applying, Applied, ApplySucceeded, c.finishedAt.value)
    ensures old(t.mine) <= t.mine
    ensures Clear(t.script, old(t.tick)) && old(t.durable) == applying ==>
              (r.Ok? <==> c.checksPass && c.terraformReturns && c.finishedAt.Some?) && (r.Err? ==> r.error == ReconciliationNeeded)
  {
    hide Perform, History, CommittedOver, Follow, Witnessed, Committed, ValidDocument, Outcome, Observation, Extends;
    invoked := c.checksPass;
    var proposed: Option<Ledger> := None;
    ghost var was, mine := t.history, t.mine;
    ExtendsItself(was);
    if c.checksPass && c.terraformReturns && c.finishedAt.Some? {
      proposed := Some(Outcome(applying, true, c.finishedAt.value));
      var confirmed := ReplaceLedgerConfirmed(t, applying, proposed.value, Observation(true, c.finishedAt.value));
      ExtendsKeeps(old(t.history), t.history, applying);
      if confirmed.Ok? {
        return Ok(confirmed.value), invoked;
      }
    }
    ghost var between, mine' := t.history, t.mine;
    r := AfterError(t, applying, proposed, c);
    ExtendsAgain(was, between, t.history);
    WroteEither(mine, mine', between, t.mine, t.history, LossOf(applying, c), proposed);
  }

  lemma WroteEither(before: set<nat>, mine: set<nat>, h: seq<Ledger>, mine': set<nat>, g: seq<Ledger>, loss: Ledger, proposed: Option<Ledger>)
    requires if proposed.Some? then WroteOnly(before, mine, h, proposed.value) else before == mine
    requires WroteOnly(mine, mine', g, loss) && Extends(h, g)
    ensures before <= mine'
    ensures forall k :: k in mine' && k !in before ==> k < |g| && (g[k] == loss || proposed == Some(g[k]))
  {
  }
}
