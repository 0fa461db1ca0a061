/** Durable writes whose reply may be lost, and the loops that confirm them by readback. */
module ConfirmedWrites {
  import opened Outcomes
  import opened LedgerEngine

  /** What surrounds one call on the durable table: the steps that others, or earlier
      requests arriving late, commit before it, whether the request arrives, and whether
      its reply comes back. */
  datatype Event = Event(others: seq<Action>, delivered: bool, answered: bool)

  const CLEAR := Event([], true, true)

  /** One call as its caller sees it; whether a write committed is not visible. */
  datatype Call =
    | Wrote(committed: bool, ok: bool)
    | Saw(answer: Option<Ledger>)

  datatype ConfirmError = NotConfirmed | Conflict | ReadbackMismatch | DidNotCommit

  // ---------------------------------------------------------------- the confirming loop as an automaton

  /** Where the loop of a confirmed replacement stands between two calls. */
  datatype Confirm =
    | Writing(attempt: nat)
    | Reading(attempt: nat, tries: nat, ok: bool)
    | Settled(result: Result<Ledger, ConfirmError>)

  /** What an answered read decides. */
  function Answered(attempt: nat, ok: bool, current: Ledger, proposed: Ledger, durable: Ledger): Confirm {
    if durable == proposed then Settled(Ok(proposed))
    else if durable != current then Settled(Err(Conflict))
    else if ok then Settled(Err(ReadbackMismatch))
    else if attempt == 1 then Settled(Err(DidNotCommit))
    else Writing(1)
  }

  function Reply(c: Confirm, current: Ledger, proposed: Ledger, call: Call): Confirm {
    match (c, call)
    case (Writing(attempt), Wrote(_, ok)) => Reading(attempt, 0, ok)
    case (Reading(attempt, tries, ok), Saw(None)) =>
      if tries == 0 then Reading(attempt, 1, ok)
      else if attempt == 0 then Writing(1)
      else Settled(Err(NotConfirmed))
    case (Reading(attempt, tries, ok), Saw(Some(durable))) => Answered(attempt, ok, current, proposed, durable)
    case _ => c
  }

  function Follow(c: Confirm, current: Ledger, proposed: Ledger, calls: seq<Call>): Confirm {
    if calls == [] then c
    else Reply(Follow(c, current, proposed, calls[..|calls| - 1]), current, proposed, calls[|calls| - 1])
  }

  lemma NothingYet(c: Confirm, current: Ledger, proposed: Ledger)
    ensures Follow(c, current, proposed, []) == c
    ensures !Committed([]) && !Witnessed([])
  {
  }

  lemma FollowOne(c: Confirm, current: Ledger, proposed: Ledger, calls: seq<Call>, call: Call)
    ensures Follow(c, current, proposed, calls + [call]) == Reply(Follow(c, current, proposed, calls), current, proposed, call)
  {
    assert (calls + [call])[..|calls|] == calls;
  }

  /** A write committed, and some later read was answered. */
  ghost predicate Witnessed(calls: seq<Call>) {
    exists i, j :: 0 <= i < j < |calls| && calls[i].Wrote? && calls[i].committed && calls[j].Saw? && calls[j].answer.Some?
  }

  ghost predicate Committed(calls: seq<Call>) {
    exists i :: 0 <= i < |calls| && calls[i].Wrote? && calls[i].committed
  }

  lemma WitnessOne(calls: seq<Call>, call: Call)
    ensures Committed(calls + [call]) <==> Committed(calls) || (call.Wrote? && call.committed)
    ensures Witnessed(calls + [call]) <==> Witnessed(calls) || (Committed(calls) && call.Saw? && call.answer.Some?)
  {
    var all := calls + [call];
    assert forall k :: 0 <= k < |calls| ==> all[k] == calls[k];
    assert all[|calls|] == call;
    if Committed(calls) {
      var i :| 0 <= i < |calls| && calls[i].Wrote? && calls[i].committed;
      assert all[i].Wrote? && all[i].committed;
    }
    if Witnessed(calls) {
      var i, j :| 0 <= i < j < |calls| && calls[i].Wrote? && calls[i].committed && calls[j].Saw? && calls[j].answer.Some?;
      assert all[i].Wrote? && all[i].committed && all[j].Saw? && all[j].answer.Some?;
    }
  }

  // ---------------------------------------------------------------- the table

  ghost predicate Extends(h: seq<Ledger>, g: seq<Ledger>) {
    |h| <= |g| && g[..|h|] == h
  }

  lemma ExtendsAgain(h: seq<Ledger>, g: seq<Ledger>, k: seq<Ledger>)
    requires Extends(h, g) && Extends(g, k)
    ensures Extends(h, k)
  {
    assert k[..|h|] == k[..|g|][..|h|];
  }

  lemma ExtendsItself(h: seq<Ledger>)
    ensures Extends(h, h)
  {
    assert h[..|h|] == h;
  }

  /** All that this client has committed since is this one ledger. */
  ghost predicate WroteOnly(before: set<nat>, mine: set<nat>, h: seq<Ledger>, l: Ledger) {
    before <= mine && forall k :: k in mine && k !in before ==> k < |h| && h[k] == l
  }

  lemma WroteAgain(before: set<nat>, mine: set<nat>, h: seq<Ledger>, mine': set<nat>, g: seq<Ledger>, l: Ledger)
    requires WroteOnly(before, mine, h, l) && WroteOnly(mine, mine', g, l) && Extends(h, g)
    ensures WroteOnly(before, mine', g, l)
  {
  }

  lemma WroteLater(before: set<nat>, mine: set<nat>, h: seq<Ledger>, g: seq<Ledger>, l: Ledger)
    requires WroteOnly(before, mine, h, l) && Extends(h, g)
    ensures WroteOnly(before, mine, g, l)
  {
  }

  lemma WroteOne(before: set<nat>, mine: set<nat>, h: seq<Ledger>, l: Ledger, committed: bool)
    requires if committed then h != [] && h[|h| - 1] == l && mine == before + {|h| - 1} else mine == before
    ensures WroteOnly(before, mine, h, l)
  {
  }

  lemma WroteNothing(mine: set<nat>, h: seq<Ledger>, l: Ledger)
    ensures WroteOnly(mine, mine, h, l)
  {
  }

  /** What a suffix from the start gains when more is appended. */
  lemma SuffixGrows<T>(before: seq<T>, more: seq<T>, start: nat)
    requires start <= |before|
    ensures (before + more)[start..] == before[start..] + more && (before + more)[..start] == before[..start]
  {
  }

  lemma HistoryGrows(h: seq<Ledger>, a: seq<Action>, action: Action, n: Ledger)
    requires History(h, a) && Perform(h[|h| - 1], action) == Ok(n)
    ensures History(h + [n], a + [action])
  {
    assert (h + [n])[0] == h[0];
  }

  /** One ledger item of the execution table, with its whole past. Which steps the
      other clients take, and which requests and replies are lost, is read from a
      script; nothing is assumed of the script, so it stands for every interleaving. */
  class LedgerTable {
    const script: nat -> Event
    var tick: nat
    var durable: Ledger
    ghost var history: seq<Ledger>
    ghost var actions: seq<Action>
    /** The positions in the history committed by this client. */
    ghost var mine: set<nat>
    /** The calls this client has made. */
    ghost var calls: seq<Call>

    ghost predicate Valid()
      reads this
    {
      && History(history, actions)
      && durable == history[|history| - 1]
      && forall k :: k in mine ==> k < |history|
    }

    constructor (plan: PlanRecord, at: int, script: nat -> Event)
      ensures Valid() && history == [InitialLedger(plan, at)] && mine == {} && calls == []
      ensures this.script == script && tick == 0
    {
      this.script := script;
      tick := 0;
      durable := InitialLedger(plan, at);
      history := [InitialLedger(plan, at)];
      actions := [];
      mine := {};
      calls := [];
    }

    /** The other clients commit what the script says, as far as it is a legal step. */
    method Others()
      requires Valid()
      modifies this`durable, this`history, this`actions
      ensures Valid() && Extends(old(history), history)
      ensures script(tick).others == [] ==> history == old(history)
    {
      hide Perform, History, Extends;
      ExtendsItself(history);
      var steps := script(tick).others;
      var i := 0;
      while i < |steps|
        invariant i <= |steps|
        invariant Valid() && Extends(old(history), history)
        invariant i == 0 ==> history == old(history)
      {
        ghost var before := history;
        Other(steps[i]);
        ExtendsAgain(old(history), before, history);
        i := i + 1;
      }
    }

    /** One step of another client, if it is legal. */
    method Other(step: Action)
      requires Valid()
      modifies this`durable, this`history, this`actions
      ensures Valid() && Extends(old(history), history)
    {
      hide Perform, History;
      match Perform(durable, step) {
        case Ok(next) =>
          HistoryGrows(history, actions, step, next);
          history, actions := history + [next], actions + [step];
          durable := next;
        case Err(_) =>
      }
    }

    /** The conditional put: it commits only over the expected version, digest and
        status, and reports success only if it committed. */
    method Replace(current: Ledger, proposed: Ledger, ghost action: Action) returns (ok: bool)
      requires Valid() && Perform(current, action) == Ok(proposed)
      modifies this`tick, this`durable, this`history, this`actions, this`mine, this`calls
      ensures Valid() && Extends(old(history), history) && tick == old(tick) + 1
      ensures |calls| == |old(calls)| + 1 && calls[..|old(calls)|] == old(calls)
      ensures calls[|old(calls)|].Wrote? && calls[|old(calls)|].ok == ok
      ensures ok <==> calls[|old(calls)|].committed && script(old(tick)).answered
      ensures calls[|old(calls)|].committed ==> script(old(tick)).delivered
      ensures calls[|old(calls)|].committed ==> proposed == durable && mine == old(mine) + {|history| - 1} && |history| > |old(history)|
      ensures !calls[|old(calls)|].committed ==> mine == old(mine)
      ensures script(old(tick)).others == [] ==>
                && (calls[|old(calls)|].committed <==> script(old(tick)).delivered && old(durable) == current)
                && durable == (if calls[|old(calls)|].committed then proposed else old(durable))
                && history == (if calls[|old(calls)|].committed then old(history) + [proposed] else old(history))
      ensures script(old(tick)).answered && calls[|old(calls)|].committed ==> ok
    {
      hide Perform, History;
      Others();
      var event := script(tick);
      var committed := event.delivered && durable.version == current.version
                       && DigestOfLedger(durable) == DigestOfLedger(current) && durable.status == current.status;
      if committed {
        mine := mine + {|history|};
        HistoryGrows(history, actions, action, proposed);
        history, actions := history + [proposed], actions + [action];
        durable := proposed;
      }
      ok := committed && event.answered;
      calls := calls + [Wrote(committed, ok)];
      tick := tick + 1;
    }

    /** The strongly consistent read. */
    method Get() returns (answer: Option<Ledger>)
      requires Valid()
      modifies this`tick, this`durable, this`history, this`actions, this`calls
      ensures Valid() && Extends(old(history), history) && tick == old(tick) + 1
      ensures answer.Some? ==> answer.value == durable && answer.value in history
      ensures calls == old(calls) + [Saw(answer)]
      ensures script(old(tick)).others == [] ==> history == old(history)
      ensures answer.Some? <==> script(old(tick)).delivered && script(old(tick)).answered
    {
      Others();
      answer := if script(tick).delivered && script(tick).answered then Some(durable) else None;
      calls := calls + [Saw(answer)];
      tick := tick + 1;
    }
  }

  /** Nobody else commits anything from this call on. */
  ghost predicate Quiet(script: nat -> Event, from: nat) {
    forall k: nat :: from <= k ==> script(k).others == []
  }

  /** `next` was committed directly over `current`, and nowhere else. */
  ghost predicate CommittedOver(h: seq<Ledger>, current: Ledger, next: Ledger) {
    && (exists k :: ReplacedAt(h, k, current, next))
    && (forall i, j :: 0 <= i < |h| && 0 <= j < |h| && h[i] == next && h[j] == next ==> i == j)
  }

  ghost predicate ReplacedAt(h: seq<Ledger>, k: int, current: Ledger, next: Ledger) {
    0 < k < |h| && h[k - 1] == current && h[k] == next
  }

  /** Any appearance of the proposal in a history that holds the current ledger is one
      atomic replacement of the current ledger. */
  lemma AppearanceIsReplacement(h: seq<Ledger>, a: seq<Action>, current: Ledger, action: Action, proposed: Ledger)
    requires History(h, a) && current in h && proposed in h
    requires Perform(current, action) == Ok(proposed)
    ensures CommittedOver(h, current, proposed)
  {
    hide Perform, History;
    var c :| 0 <= c < |h| && h[c] == current;
    var k :| 0 <= k < |h| && h[k] == proposed;
    StepRaisesVersion(current, action, proposed);
    PrefixInvariant(h, a, c);
    PrefixInvariant(h, a, k);
    assert ReplacedAt(h, k, current, proposed);
    forall i, j | 0 <= i < |h| && 0 <= j < |h| && h[i] == proposed && h[j] == proposed ensures i == j {
      OneAttempt(h, a, i, j);
    }
  }

  lemma ExtendsKeeps(h: seq<Ledger>, g: seq<Ledger>, l: Ledger)
    requires Extends(h, g) && l in h
    ensures l in g
  {
    var i :| 0 <= i < |h| && h[i] == l;
    assert g[i] == h[i];
  }

  /** A ledger that has been replaced is never durable again. */
  lemma NeverAgain(h: seq<Ledger>, a: seq<Action>, before: seq<Ledger>, current: Ledger)
    requires History(h, a) && Extends(before, h) && current in before && before[|before| - 1] != current
    ensures h[|h| - 1] != current
  {
    var c :| 0 <= c < |before| && before[c] == current;
    assert h[c] == current && c < |h| - 1;
    PrefixInvariant(h, a, c);
    PrefixInvariant(h, a, |h| - 1);
  }

  /** The calls of one readback: up to two reads, the first answered one ends it. */
  function Readback(answer: Option<Ledger>, tries: nat): seq<Call> {
    if tries == 1 then [Saw(answer)] else [Saw(None), Saw(answer)]
  }

  /** One write and its readback, as the loop of ReplaceLedgerConfirmed makes them. */
  lemma RoundTrip(current: Ledger, proposed: Ledger, calls: seq<Call>, attempt: nat, w: Call, answer: Option<Ledger>, tries: nat)
    requires attempt < 2 && w.Wrote? && 1 <= tries <= 2 && (answer.None? ==> tries == 2)
    requires Follow(Writing(0), current, proposed, calls) == Writing(attempt)
    ensures Follow(Writing(0), current, proposed, calls + [w] + Readback(answer, tries))
            == match answer
               case Some(durable) => Answered(attempt, w.ok, current, proposed, durable)
               case None => if attempt == 0 then Writing(1) else Settled(Err(NotConfirmed))
    ensures Committed(calls + [w] + Readback(answer, tries)) <==> Committed(calls) || w.committed
    ensures Witnessed(calls + [w] + Readback(answer, tries))
            <==> Witnessed(calls) || ((Committed(calls) || w.committed) && answer.Some?)
  {
    hide Follow, Committed, Witnessed;
    var c1 := calls + [w];
    FollowOne(Writing(0), current, proposed, calls, w);
    WitnessOne(calls, w);
    if tries == 1 {
      FollowOne(Writing(0), current, proposed, c1, Saw(answer));
      WitnessOne(c1, Saw(answer));
    } else {
      FollowOne(Writing(0), current, proposed, c1, Saw(None));
      WitnessOne(c1, Saw(None));
      FollowOne(Writing(0), current, proposed, c1 + [Saw(None)], Saw(answer));
      WitnessOne(c1 + [Saw(None)], Saw(answer));
      assert c1 + Readback(answer, 2) == c1 + [Saw(None)] + [Saw(answer)];
    }
  }

  /** Read the durable ledger, at most twice. */
  method ReadTwice(t: LedgerTable) returns (durable: Option<Ledger>, ghost tries: nat)
    requires t.Valid()
    modifies t`tick, t`durable, t`history, t`actions, t`calls
    ensures t.Valid() && Extends(old(t.history), t.history) && t.tick == old(t.tick) + tries
    ensures 1 <= tries <= 2 && (durable.None? ==> tries == 2)
    ensures durable.Some? ==> durable.value == t.durable
    ensures t.calls == old(t.calls) + Readback(durable, tries)
    ensures Quiet(t.script, old(t.tick)) ==> t.history == old(t.history)
    ensures t.script(old(t.tick)).delivered && t.script(old(t.tick)).answered ==> durable.Some?
  {
    hide History;
    durable := t.Get();
    tries := 1;
    if durable.None? {
      durable := t.Get();
      tries := 2;
    }
  }

  /** The conditional write of one turn. */
  method WriteOnce(t: LedgerTable, current: Ledger, proposed: Ledger, ghost action: Action) returns (ok: bool, ghost w: Call)
    requires t.Valid() && current in t.history && Perform(current, action) == Ok(proposed)
    modifies t`tick, t`durable, t`history, t`actions, t`mine, t`calls
    ensures t.Valid() && Extends(old(t.history), t.history) && current in t.history
    ensures w.Wrote? && w.ok == ok && t.calls == old(t.calls) + [w] && t.tick == old(t.tick) + 1
    ensures WroteOnly(old(t.mine), t.mine, t.history, proposed)
    ensures ok ==> t.durable == proposed
    ensures Quiet(t.script, old(t.tick)) ==>
              && (w.committed <==> t.script(old(t.tick)).delivered && old(t.durable) == current)
              && t.durable == if w.committed then proposed else old(t.durable)
  {
    hide Perform, History, Extends, WroteOnly;
    ok := t.Replace(current, proposed, action);
    w := t.calls[|old(t.calls)|];
    WroteOne(old(t.mine), t.mine, t.history, proposed, w.committed);
    ExtendsKeeps(old(t.history), t.history, current);
  }

  lemma Superseded(h: seq<Ledger>, a: seq<Action>, written: seq<Ledger>, current: Ledger, action: Action, proposed: Ledger)
    requires History(h, a) && Extends(written, h) && current in written && written[|written| - 1] == proposed
    requires Perform(current, action) == Ok(proposed)
    ensures h[|h| - 1] != current
  {
    hide Perform, History, Extends;
    StepRaisesVersion(current, action, proposed);
    NeverAgain(h, a, written, current);
  }

  /** One turn of the confirming loop: the conditional write, then the readback. A write
      that reported success is never followed by a read of the ledger it replaced. */
  method WriteThenRead(t: LedgerTable, current: Ledger, proposed: Ledger, ghost action: Action)
    returns (ok: bool, durable: Option<Ledger>, ghost w: Call, ghost tries: nat)
    requires t.Valid() && current in t.history && Perform(current, action) == Ok(proposed)
    modifies t
    ensures t.Valid() && Extends(old(t.history), t.history) && current in t.history
    ensures w.Wrote? && w.ok == ok && 1 <= tries <= 2 && (durable.None? ==> tries == 2)
    ensures t.calls == old(t.calls) + ([w] + Readback(durable, tries)) && t.tick == old(t.tick) + 1 + tries
    ensures WroteOnly(old(t.mine), t.mine, t.history, proposed)
    ensures durable.Some? ==> durable.value == t.durable && durable.value in t.history
    ensures ok ==> durable != Some(current)
    ensures Quiet(t.script, old(t.tick)) ==>
              && (w.committed <==> t.script(old(t.tick)).delivered && old(t.durable) == current)
              && t.durable == if w.committed then proposed else old(t.durable)
    ensures t.script(old(t.tick) + 1).delivered && t.script(old(t.tick) + 1).answered ==> durable.Some?
  {
    hide Perform, History, Extends, WroteOnly, CommittedOver;
    ok, w := WriteOnce(t, current, proposed, action);
    ghost var written := t.history;
    durable, tries := ReadTwice(t);
    ExtendsKeeps(written, t.history, current);
    ExtendsAgain(old(t.history), written, t.history);
    WroteLater(old(t.mine), t.mine, written, t.history, proposed);
    if ok { Superseded(t.history, t.actions, written, current, action, proposed); }
  }

  /** One turn as a step of the automaton over the calls since the start. */
  method Turn(t: LedgerTable, current: Ledger, proposed: Ledger, ghost action: Action, ghost start: nat, ghost attempt: nat)
    returns (ok: bool, durable: Option<Ledger>)
    requires t.Valid() && current in t.history && Perform(current, action) == Ok(proposed)
    requires attempt < 2 && start <= |t.calls| && Follow(Writing(0), current, proposed, t.calls[start..]) == Writing(attempt)
    modifies t
    ensures t.Valid() && Extends(old(t.history), t.history) && current in t.history
    ensures |old(t.calls)| < |t.calls| <= |old(t.calls)| + 3 && t.calls[..start] == old(t.calls[..start])
    ensures t.tick - old(t.tick) == |t.calls| - |old(t.calls)|
    ensures WroteOnly(old(t.mine), t.mine, t.history, proposed)
    ensures durable.Some? ==> durable.value == t.durable && durable.value in t.history
    ensures ok ==> durable != Some(current)
    ensures t.script(old(t.tick) + 1).delivered && t.script(old(t.tick) + 1).answered ==> durable.Some?
    ensures Follow(Writing(0), current, proposed, t.calls[start..])
            == match durable
               case Some(d) => Answered(attempt, ok, current, proposed, d)
               case None => if attempt == 0 then Writing(1) else Settled(Err(NotConfirmed))
    ensures Quiet(t.script, old(t.tick)) && old(t.durable) == (if old(Committed(t.calls[start..])) then proposed else current) ==>
              && t.durable == (if Committed(t.calls[start..]) then proposed else current)
              && (t.script(old(t.tick)).delivered && old(t.durable) == current ==> Committed(t.calls[start..]))
              && (Witnessed(t.calls[start..]) <==> old(Witnessed(t.calls[start..])) || (Committed(t.calls[start..]) && durable.Some?))
  {
    hide Perform, History, Follow, Witnessed, Committed, Extends, WroteOnly;
    ghost var before := t.calls;
    ghost var w, tries;
    ok, durable, w, tries := WriteThenRead(t, current, proposed, action);
    SuffixGrows(before, [w] + Readback(durable, tries), start);
    assert t.calls[start..] == before[start..] + [w] + Readback(durable, tries);
    RoundTrip(current, proposed, before[start..], attempt, w, durable, tries);
  }

  lemma StepRaisesVersion(l: Ledger, a: Action, n: Ledger)
    requires Perform(l, a) == Ok(n)
    ensures n.version == l.version + 1
  {
  }

  /** Replace one ledger and resolve a lost reply by reading back.
      The loop is the automaton above. If it returns, the replacement happened, once and
      atomically, whatever others did and whatever was lost. If nobody else writes, it
      returns exactly when one of its writes committed and a later read was answered. */
  method ReplaceLedgerConfirmed(t: LedgerTable, current: Ledger, proposed: Ledger, ghost action: Action)
    returns (r: Result<Ledger, ConfirmError>)
    requires t.Valid() && current in t.history && Perform(current, action) == Ok(proposed)
    modifies t
    ensures t.Valid() && Extends(old(t.history), t.history)
    ensures |old(t.calls)| <= |t.calls| && t.calls[..|old(t.calls)|] == old(t.calls)
    ensures Follow(Writing(0), current, proposed, t.calls[|old(t.calls)|..]) == Settled(r)
    ensures r.Ok? ==> r.value == proposed && CommittedOver(t.history, current, proposed)
    ensures r != Err(ReadbackMismatch)
    ensures WroteOnly(old(t.mine), t.mine, t.history, proposed)
    ensures t.tick - old(t.tick) == |t.calls| - |old(t.calls)| <= 6
    ensures Quiet(t.script, old(t.tick)) && old(t.durable) == current ==>
              && (r.Ok? <==> Witnessed(t.calls[|old(t.calls)|..]))
              && t.durable == (if Committed(t.calls[|old(t.calls)|..]) then proposed else current)
              && (t.script(old(t.tick)).delivered && t.script(old(t.tick) + 1).delivered && t.script(old(t.tick) + 1).answered
                  ==> r.Ok?)
  {
    hide Perform, History, Follow, Witnessed, Committed, CommittedOver, Extends, WroteOnly;
    ExtendsItself(t.history);
    WroteNothing(t.mine, t.history, proposed);
    ghost var start := |t.calls|;
    ghost var calm := Quiet(t.script, t.tick) && t.durable == current;
    StepRaisesVersion(current, action, proposed);
    NothingYet(Writing(0), current, proposed);
    assert t.calls[start..] == [];
    var attempt := 0;
    while attempt < 2
      invariant 0 <= attempt <= 1
      invariant t.Valid() && Extends(old(t.history), t.history) && current in t.history
      invariant start <= |t.calls| <= start + 3 * attempt && t.calls[..start] == old(t.calls)
      invariant t.tick == old(t.tick) + |t.calls| - start
      invariant Follow(Writing(0), current, proposed, t.calls[start..]) == Writing(attempt)
      invariant WroteOnly(old(t.mine), t.mine, t.history, proposed)
      invariant attempt == 0 ==> t.tick == old(t.tick) && !Committed(t.calls[start..])
      invariant attempt == 1 && calm ==>
                  !(t.script(old(t.tick)).delivered && t.script(old(t.tick) + 1).delivered && t.script(old(t.tick) + 1).answered)
      invariant calm ==> !Witnessed(t.calls[start..]) && t.durable == if Committed(t.calls[start..]) then proposed else current
      decreases 2 - attempt
    {
      ghost var was, mine := t.history, t.mine;
      var ok, durable := Turn(t, current, proposed, action, start, attempt);
      ExtendsAgain(old(t.history), was, t.history);
      WroteAgain(old(t.mine), mine, was, t.mine, t.history, proposed);
      if durable.None? {
        if attempt == 0 {
          attempt := 1;
          continue;
        }
        return Err(NotConfirmed);
      }
      if durable.value == proposed {
        AppearanceIsReplacement(t.history, t.actions, current, action, proposed);
        return Ok(proposed);
      }
      if durable.value != current {
        return Err(Conflict);
      }
      if ok {
        return Err(ReadbackMismatch);
      }
      if attempt == 1 {
        break;
      }
      attempt := attempt + 1;
    }
    return Err(DidNotCommit);
  }

  // ---------------------------------------------------------------- create-only records

  /** What surrounds one call on a create-only record. A rival may also be an earlier
      request of this client that arrives late. */
  datatype SlotEvent<T> = SlotEvent(rival: Option<T>, delivered: bool, answered: bool)

  /** A record that is created once and never replaced; rivals may create it first. */
  class RecordSlot<T(==)> {
    const script: nat -> SlotEvent<T>
    var tick: nat
    var stored: Option<T>
    /** Whether a write of this client created the record. */
    ghost var created: bool

    constructor (script: nat -> SlotEvent<T>)
      ensures this.script == script && tick == 0 && stored.None? && !created
    {
      this.script := script;
      tick, stored, created := 0, None, false;
    }

    method Rival()
      modifies this`stored
      ensures stored == if old(stored).None? then script(tick).rival else old(stored)
    {
      if stored.None? {
        stored := script(tick).rival;
      }
    }

    method Create(x: T) returns (ok: bool)
      modifies this
      ensures tick == old(tick) + 1
      ensures stored == AfterCall(old(stored), script(old(tick)), Some(x))
      ensures ok <==> Commits(old(stored), script(old(tick))) && script(old(tick)).answered
      ensures created <==> old(created) || Commits(old(stored), script(old(tick)))
    {
      Rival();
      var absent := script(tick).delivered && stored.None?;
      if absent {
        stored, created := Some(x), true;
      }
      ok := absent && script(tick).answered;
      tick := tick + 1;
    }

    /** A read of a missing record raises, as does a read whose reply is lost. */
    method Read() returns (answer: Option<T>)
      modifies this`tick, this`stored
      ensures tick == old(tick) + 1
      ensures stored == AfterCall(old(stored), script(old(tick)), None)
      ensures answer == if script(old(tick)).delivered && script(old(tick)).answered then stored else None
    {
      Rival();
      answer := if script(tick).delivered && script(tick).answered then stored else None;
      tick := tick + 1;
    }
  }

  /** A creation commits if no record is there when it arrives. */
  predicate Commits<T>(stored: Option<T>, event: SlotEvent<T>) {
    stored.None? && event.rival.None? && event.delivered
  }

  /** What is stored after one call: whoever comes first keeps the place. */
  function AfterCall<T>(stored: Option<T>, event: SlotEvent<T>, mine: Option<T>): Option<T> {
    if stored.Some? then stored
    else if event.rival.Some? then event.rival
    else if event.delivered then mine else None
  }

  /** What is stored after n calls of the confirming loop, if it makes that many: its calls
      0 and 3 are writes, the others are reads. */
  ghost function StoredAfter<T>(script: nat -> SlotEvent<T>, from: nat, stored: Option<T>, proposed: T, n: nat): Option<T> {
    if n == 0 then stored
    else AfterCall(StoredAfter(script, from, stored, proposed, n - 1), script(from + n - 1),
                   if n == 1 || n == 4 then Some(proposed) else None)
  }

  /** Whoever comes first stays: no later call of anybody changes the record. */
  lemma {:induction false} FirstComeStays<T>(script: nat -> SlotEvent<T>, from: nat, stored: Option<T>, proposed: T, m: nat, n: nat)
    requires m <= n && StoredAfter(script, from, stored, proposed, m).Some?
    ensures StoredAfter(script, from, stored, proposed, n) == StoredAfter(script, from, stored, proposed, m)
  {
    if m < n { FirstComeStays(script, from, stored, proposed, m, n - 1); }
  }

  /** A write and two reads, one after the other. */
  lemma OneTurn<T>(script: nat -> SlotEvent<T>, from: nat, stored: Option<T>, proposed: T, n: nat)
    requires n == 0 || n == 3
    ensures var written := AfterCall(StoredAfter(script, from, stored, proposed, n), script(from + n), Some(proposed));
            && StoredAfter(script, from, stored, proposed, n + 1) == written
            && StoredAfter(script, from, stored, proposed, n + 2) == AfterCall(written, script(from + n + 1), None)
            && StoredAfter(script, from, stored, proposed, n + 3)
               == AfterCall(AfterCall(written, script(from + n + 1), None), script(from + n + 2), None)
  {
  }

  lemma Unasked<T>(script: nat -> SlotEvent<T>, from: nat, stored: Option<T>, proposed: T)
    ensures StoredAfter(script, from, stored, proposed, 0) == stored
  {
  }

  /** Call n, a read, is answered with a record. */
  ghost predicate Heard<T>(script: nat -> SlotEvent<T>, from: nat, stored: Option<T>, proposed: T, n: nat) {
    script(from + n).delivered && script(from + n).answered && StoredAfter(script, from, stored, proposed, n + 1).Some?
  }

  /** Call n, a write, commits and its reply arrives. */
  ghost predicate Told<T>(script: nat -> SlotEvent<T>, from: nat, stored: Option<T>, proposed: T, n: nat) {
    script(from + n).answered && Commits(StoredAfter(script, from, stored, proposed, n), script(from + n))
  }

  /** Some read is answered; the second pair of reads follows only a first write that was
      not told to have committed. */
  ghost predicate Decided<T>(script: nat -> SlotEvent<T>, from: nat, stored: Option<T>, proposed: T) {
    || Heard(script, from, stored, proposed, 1) || Heard(script, from, stored, proposed, 2)
    || (!Told(script, from, stored, proposed, 0)
        && (Heard(script, from, stored, proposed, 4) || Heard(script, from, stored, proposed, 5)))
  }

  /** The two reads after a write. */
  method ReadSlotTwice<T(==)>(slot: RecordSlot<T>) returns (durable: Option<T>)
    modifies slot`tick, slot`stored
    ensures var first := AfterCall(old(slot.stored), slot.script(old(slot.tick)), None);
            var second := AfterCall(first, slot.script(old(slot.tick) + 1), None);
            var heard := slot.script(old(slot.tick)).delivered && slot.script(old(slot.tick)).answered && first.Some?;
            var late := slot.script(old(slot.tick) + 1).delivered && slot.script(old(slot.tick) + 1).answered && second.Some?;
            && slot.stored == (if heard then first else second)
            && slot.tick == old(slot.tick) + (if heard then 1 else 2)
            && durable == if heard || late then slot.stored else None
  {
    durable := slot.Read();
    if durable.None? { durable := slot.Read(); }
  }

  /** One turn of the confirming loop: calls n, n + 1 and, if that is not answered, n + 2. */
  method CreateThenRead<T(==)>(slot: RecordSlot<T>, proposed: T, ghost from: nat, ghost start: Option<T>, ghost n: nat)
    returns (ok: bool, durable: Option<T>)
    requires (n == 0 || n == 3) && slot.tick == from + n && slot.stored == StoredAfter(slot.script, from, start, proposed, n)
    modifies slot
    ensures from + n + 2 <= slot.tick <= from + n + 3 && (durable.None? ==> slot.tick == from + n + 3)
    ensures slot.stored == StoredAfter(slot.script, from, start, proposed, slot.tick - from)
    ensures ok <==> Told(slot.script, from, start, proposed, n)
    ensures durable.Some?
      <==> Heard(slot.script, from, start, proposed, n + 1) || Heard(slot.script, from, start, proposed, n + 2)
    ensures durable.Some? ==> durable == slot.stored
    ensures old(slot.stored).Some? ==> slot.stored == old(slot.stored) && slot.created == old(slot.created)
    ensures slot.created && !old(slot.created) ==> slot.stored == Some(proposed)
  {
    OneTurn(slot.script, from, start, proposed, n);
    ok := slot.Create(proposed);
    durable := ReadSlotTwice(slot);
  }

  /** Confirm a create-only write after a lost reply. Nothing is ever replaced: the record
      is that of whoever's request came first. The proposal is returned exactly if a read
      was answered and found it; a different record is a conflict exactly if a read was
      answered and found that; and without such a read it tells whether a write of its own
      was told to have committed. */
  method CreateOnceConfirmed<T(==)>(slot: RecordSlot<T>, proposed: T) returns (r: Result<T, ConfirmError>)
    modifies slot
    ensures old(slot.tick) <= slot.tick <= old(slot.tick) + 6
    ensures slot.stored == StoredAfter(slot.script, old(slot.tick), old(slot.stored), proposed, slot.tick - old(slot.tick))
    ensures r.Ok? <==> Decided(slot.script, old(slot.tick), old(slot.stored), proposed) && slot.stored == Some(proposed)
    ensures r.Ok? ==> r.value == proposed
    ensures r == Err(Conflict) <==>
      Decided(slot.script, old(slot.tick), old(slot.stored), proposed) && slot.stored.Some? && slot.stored != Some(proposed)
    ensures r == Err(NotConfirmed) <==>
      && !Decided(slot.script, old(slot.tick), old(slot.stored), proposed)
      && (Told(slot.script, old(slot.tick), old(slot.stored), proposed, 0)
          || Told(slot.script, old(slot.tick), old(slot.stored), proposed, 3))
    ensures r != Err(ReadbackMismatch)
    ensures slot.created && !old(slot.created) ==> slot.stored == Some(proposed)
  {
    hide StoredAfter, Told, Heard;
    ghost var script, from, start := slot.script, slot.tick, slot.stored;
    Unasked(script, from, start, proposed);
    var attempt := 0;
    while attempt < 2
      invariant 0 <= attempt <= 2 && slot.tick == from + 3 * attempt
      invariant slot.stored == StoredAfter(script, from, start, proposed, 3 * attempt)
      invariant slot.created && !old(slot.created) ==> slot.stored == Some(proposed)
      invariant attempt == 0 ==> slot.stored == start && slot.created == old(slot.created)
      invariant attempt > 0 ==>
        !Told(script, from, start, proposed, 0) && !Heard(script, from, start, proposed, 1) && !Heard(script, from, start, proposed, 2)
      invariant attempt > 1 ==>
        !Told(script, from, start, proposed, 3) && !Heard(script, from, start, proposed, 4) && !Heard(script, from, start, proposed, 5)
    {
      var ok, durable := CreateThenRead(slot, proposed, from, start, 3 * attempt);
      if durable.Some? {
        return if durable.value == proposed then Ok(proposed) else Err(Conflict);
      }
      if ok {
        return Err(NotConfirmed);
      }
      attempt := attempt + 1;
    }
    return Err(DidNotCommit);
  }
}
