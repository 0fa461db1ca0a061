/** The registry table and one approved conditional write with its confirmation. */
module RegistryPublication {
  import opened DeploymentRegistry
  import opened Numerals
  import opened Outcomes
  import opened RegistryItems

  // ---------------------------------------------------------------- the table

  /** How one call goes: what other publishers commit first, whether it reaches the table,
      whether the answer arrives, and what previous record a wrong answer shows. */
  datatype Event = Event(rivals: seq<Record>, delivered: bool, answered: bool, shown: Option<Option<Record>>)

  datatype Reply = Confirmed(previous: Option<Record>) | ConditionFailed | Lost

  predicate Calm(e: Event) {
    e.rivals == [] && e.delivered && e.answered && e.shown == None
  }

  /** The version of the record is a number that the decoder accepts. */
  predicate Readable(r: Record) {
    r.body.version < Power(38)
  }

  class RegistryTable {
    const script: nat -> Event
    /** How digests are written in the items. */
    const text: DigestText
    var tick: nat
    var durable: Option<Record>
    ghost var history: seq<Record>
    /** The number of write calls of this publisher, and where its writes stand. */
    ghost var puts: nat
    ghost var mine: seq<nat>

    ghost predicate Valid()
      reads this
    {
      && History(history) && durable == (if history == [] then None else Some(history[|history| - 1]))
      && forall k :: k in mine ==> k < |history|
    }

    constructor (script: nat -> Event, text: DigestText)
      ensures Valid() && this.script == script && this.text == text && history == [] && mine == []
    {
      this.script, this.text := script, text;
      tick, durable, history, puts, mine := 0, None, [], 0, [];
    }

    /** Other publishers commit what may follow; the table refuses the rest. */
    method Rivals(rs: seq<Record>)
      requires Valid()
      modifies `durable, `history
      ensures Valid() && old(history) <= history && (rs == [] ==> history == old(history))
    {
      for i := 0 to |rs|
        invariant Valid() && old(history) <= history && (rs == [] ==> history == old(history))
      {
        var may := if durable == None then PrepareCreate(rs[i]).Ok? else Follows(durable.value, rs[i]);
        if may {
          OneMore(history, rs[i]);
          durable := Some(rs[i]);
          history := history + [rs[i]];
        }
      }
    }

    /** A consistent read: what is stored, once its attributes have been decoded and
        accepted as a record. */
    method Get() returns (r: Option<Option<Record>>)
      requires Valid()
      modifies `tick, `durable, `history
      ensures Valid() && old(history) <= history
      ensures r.Some? ==> r.value == durable
      ensures tick == old(tick) + 1
      ensures r.Some? <==> script(old(tick)).delivered && script(old(tick)).answered && (durable.Some? ==> Readable(durable.value))
      ensures (forall n: nat :: Calm(script(n))) ==>
        history == old(history) && (r.Some? <==> durable.Some? ==> Readable(durable.value))
    {
      var e := script(tick);
      tick := tick + 1;
      Rivals(e.rivals);
      if !e.delivered || !e.answered { return None; }
      if durable == None { return Some(None); }
      VersionCountsWrites(history, |history| - 1);
      RecordSurvives(durable.value, text);
      var received := Received(durable.value, text);
      r := if received == None then None else Some(received);
    }

    /** One conditional write, prepared from nothing or from a current record. */
    method Put(c: Condition, current: Option<Record>, proposed: Record) returns (reply: Reply)
      requires Valid()
      requires match current
               case None => PrepareCreate(proposed) == Ok(c)
               case Some(r) => PrepareUpdate(r, proposed, r.body.version, r.digest) == Ok(c)
      modifies `tick, `durable, `history, `puts, `mine
      ensures Valid() && old(history) <= history && puts == old(puts) + 1
      ensures mine == old(mine) || CommittedLast(old(mine), mine, proposed)
      ensures mine != old(mine) ==> Over(mine[|old(mine)|], current)
      ensures tick == old(tick) + 1
      ensures var e := script(old(tick));
              && (mine != old(mine) ==> e.delivered)
              && (reply.Confirmed? <==> mine != old(mine) && e.answered)
              && (reply == ConditionFailed <==> mine == old(mine) && e.delivered && e.answered)
              && (reply.Confirmed? ==> reply.previous == if e.shown.Some? then e.shown.value else current)
      ensures (forall n: nat :: Calm(script(n))) ==> (reply == Confirmed(current) <==> old(durable) == current)
      ensures (forall n: nat :: Calm(script(n))) && old(durable) == current ==> durable == Some(proposed)
    {
      hide Follows, PrepareCreate, PrepareUpdate, Holds;
      var e := script(tick);
      tick := tick + 1;
      puts := puts + 1;
      Rivals(e.rivals);
      if !e.delivered { return Lost; }
      var previous := durable;
      Admitted(history, durable, c, current, proposed);
      if Holds(c, durable) {
        durable := Some(proposed);
        mine := mine + [|history|];
        history := history + [proposed];
        reply := if !e.answered then Lost else Confirmed(if e.shown.Some? then e.shown.value else previous);
      } else {
        reply := if e.answered then ConditionFailed else Lost;
      }
    }

    /** The record at this position replaced that one. */
    ghost predicate Over(k: nat, replaced: Option<Record>)
      reads this
    {
      k < |history| && replaced == (if k == 0 then None else Some(history[k - 1]))
    }

    /** This publisher has one more write than before, and it is this record, at the
        position its version says. */
    ghost predicate CommittedLast(before: seq<nat>, now: seq<nat>, proposed: Record)
      reads this
    {
      && |now| == |before| + 1 && now[..|before|] == before && now[|before|] < |history|
      && history[now[|before|]] == proposed && proposed.body.version == now[|before|] + 1
    }
  }

  // ---------------------------------------------------------------- one approved publication

  datatype Anchor = Anchor(deployment: string, version: int, digest: Digest<Body>)

  /** The account facts a record must agree with. */
  datatype Baseline = Baseline(
    customer: string, deployment: string, account: string, region: string, environment: string,
    accountReady: AccountReady, stateBinding: StateBinding)

  datatype PublishError = Refused | Conflict | Unsettled

  function AnchorOf(r: Record): Anchor {
    Anchor(r.body.deployment, r.body.version, r.digest)
  }

  predicate Bound(r: Record, anchor: Anchor, b: Baseline) {
    && ValidRecord(r) && AnchorOf(r) == anchor
    && r.body.customer == b.customer && r.body.deployment == b.deployment && r.body.account == b.account
    && r.body.region == b.region && r.body.environment == b.environment
    && r.body.accountReady == b.accountReady && r.body.stateBinding == b.stateBinding
  }

  lemma OwnDigest(r: Record)
    ensures ValidRecord(r) ==> r.digest == DigestOf(r.body)
  {
  }

  /** The anchors of an operation are consistent: an update is approved from one version
      to the next. */
  predicate AnchorsFit(previous: Option<Anchor>, expected: Anchor) {
    previous.Some? ==> previous.value.deployment == expected.deployment && previous.value.version + 1 == expected.version
  }

  /** A consistent read of exactly the record an anchor approves. */
  method ReadBound(table: RegistryTable, anchor: Anchor, b: Baseline) returns (r: Option<Record>)
    requires table.Valid()
    modifies table`tick, table`durable, table`history
    ensures table.Valid() && old(table.history) <= table.history
    ensures r.Some? ==> table.durable == r && Bound(r.value, anchor, b) && Readable(r.value)
    ensures table.tick == old(table.tick) + 1
    ensures (forall n: nat :: Calm(table.script(n))) ==>
      && table.history == old(table.history)
      && (old(table.durable).Some? && Bound(old(table.durable).value, anchor, b) && Readable(old(table.durable).value) ==> r.Some?)
  {
    var answer := table.Get();
    if answer == None || answer.value == None || !Bound(answer.value.value, anchor, b) { return None; }
    r := answer.value;
  }

  /** The record at this position was committed directly over the one this anchor names. */
  ghost predicate OverAnchor(table: RegistryTable, k: nat, previous: Option<Anchor>)
    reads table
  {
    && k < |table.history|
    && if previous == None then k == 0 else k > 0 && AnchorOf(table.history[k - 1]) == previous.value
  }

  /** The answer of a write shows the record that this anchor names, if it shows one. */
  predicate ShownRight(e: Event, previous: Option<Anchor>) {
    e.shown.Some? ==>
      match previous
      case None => e.shown.value == None
      case Some(anchor) => e.shown.value.Some? && AnchorOf(e.shown.value.value) == anchor
  }

  /** What makes a publication succeed when nothing interferes. */
  predicate Approved(previous: Option<Anchor>, expected: Anchor, b: Baseline, proposed: Record, durable: Option<Record>) {
    && Bound(proposed, expected, b)
    && match previous
       case None => durable == None && proposed.body.version == 1
       case Some(anchor) => durable.Some? && Bound(durable.value, anchor, b) && Follows(durable.value, proposed)
  }

  lemma ApprovedAnchorsFit(previous: Option<Anchor>, expected: Anchor, b: Baseline, proposed: Record, durable: Option<Record>)
    ensures Approved(previous, expected, b, proposed, durable) ==> AnchorsFit(previous, expected)
  {
  }

  /** At most one write, ever. Success means that this very record was committed once, by
      this call, at the position of its version, and was read back as the latest one;
      a conflict means that nothing was committed; a refusal that nothing was sent.
      onTime tells the three checks of the validity interval. */
  method Publish(table: RegistryTable, previous: Option<Anchor>, expected: Anchor, b: Baseline, proposed: Record,
                 onTime: (bool, bool, bool)) returns (r: Result<Anchor, PublishError>)
    requires table.Valid()
    modifies table
    ensures table.Valid() && old(table.history) <= table.history
    ensures table.mine == old(table.mine) || table.CommittedLast(old(table.mine), table.mine, proposed)
    ensures r.Ok? ==>
      && table.CommittedLast(old(table.mine), table.mine, proposed) && table.puts == old(table.puts) + 1
      && table.durable == Some(proposed) && Readable(proposed) && r.value == expected == AnchorOf(proposed)
    ensures r == Err(Refused) ==> table.puts == old(table.puts) && table.mine == old(table.mine)
    ensures r == Err(Conflict) ==> table.puts == old(table.puts) + 1 && table.mine == old(table.mine)
    ensures r == Err(Unsettled) ==> table.puts == old(table.puts) + 1
    ensures r.Ok? ==> onTime == (true, true, true) && ShownRight(table.script(old(table.tick) + if previous == None then 0 else 1), previous)
    ensures table.puts != old(table.puts) ==>
      && onTime.0 && onTime.1 && proposed.digest == DigestOf(proposed.body) && AnchorOf(proposed) == expected
      && (proposed.body.customer, proposed.body.deployment, proposed.body.account, proposed.body.region, proposed.body.environment)
         == (b.customer, b.deployment, b.account, b.region, b.environment)
      && proposed.body.accountReady == b.accountReady && proposed.body.stateBinding == b.stateBinding
      && (if previous == None then proposed.body.version == 1
          else previous.value.deployment == expected.deployment && previous.value.version + 1 == expected.version)
    ensures table.mine != old(table.mine) ==> OverAnchor(table, table.mine[|old(table.mine)|], previous)
    ensures (forall n: nat :: Calm(table.script(n))) && onTime == (true, true, true) ==>
      (r.Ok? <==> Approved(previous, expected, b, proposed, old(table.durable)) && Readable(proposed))
  {
    hide Power, ValidRecord, SameIdentity, PrepareUpdate, Successors, Holds, History;
    ApprovedAnchorsFit(previous, expected, b, proposed, table.durable);
    if !onTime.0 || !AnchorsFit(previous, expected) || !Bound(proposed, expected, b) { return Err(Refused); }
    OwnDigest(proposed);
    var current: Option<Record> := None;
    var prepared;
    if previous == None {
      prepared := PrepareCreate(proposed);
    } else {
      current := ReadBound(table, previous.value, b);
      if current == None { return Err(Refused); }
      prepared := PrepareUpdate(current.value, proposed, previous.value.version, previous.value.digest);
    }
    if prepared.Err? || !onTime.1 { return Err(Refused); }
    var reply := table.Put(prepared.value, current, proposed);
    match reply {
      case ConditionFailed => return Err(Conflict);
      case Lost => return Err(Unsettled);
      case Confirmed(replaced) =>
        if replaced != current { return Err(Unsettled); }
        var readback := ReadBound(table, expected, b);
        if readback != Some(proposed) || !onTime.2 { return Err(Unsettled); }
        r := Ok(AnchorOf(readback.value));
    }
  }
}
