/** What a trade does about a step, in terms of what the world answered about it. */
module WorldLaws {
  import opened Js
  import opened PlanModel
  import opened CanonicalJson
  import opened RunModel
  import opened Environment
  import opened StepRules
  import opened TurnRules
  import opened Coordinator
  import RunLaws
  import Replay
  import ValidatorLaws

  /** A trade as ExecuteTrade makes it in a world. */
  ghost predicate TradeIn(host: Host, world: World, t: Trade) {
    TradeOk(host, t) && FollowsWorld(host, world, t)
  }

  // ----- Events belong to the turn of their step -----

  lemma {:induction false} EventSource(turns: seq<Turn>, e: LeaseEvent) returns (i: nat)
    requires e in RunLaws.Trace(turns)
    ensures i < |turns| && e in Events(turns[i]) && e.id == turns[i].step.id
  {
    var last := |turns| - 1;
    if e in Events(turns[last]) {
      RunLaws.EventsOwn(turns[last]);
      i := last;
    } else {
      i := EventSource(turns[..last], e);
    }
  }

  lemma OneTurnPerId(host: Host, t: Trade, i: nat, j: nat)
    requires TradeOk(host, t) && i < |t.turns| && j < |t.turns| && t.turns[i].step.id == t.turns[j].step.id
    ensures i == j
  {
    Replay.TradeBooks(host, t);
    DistinctTurns(t, i, j);
  }

  lemma DistinctTurns(t: Trade, i: nat, j: nat)
    requires Replay.Books(t) && i < |t.turns| && j < |t.turns| && t.turns[i].step.id == t.turns[j].step.id
    ensures i == j
  {
  }

  /** Only an executed step calls anything. */
  lemma CallsAreWork(turn: Turn, action: Action)
    requires Called(turn.step.id, action) in Events(turn)
    ensures turn.visit.Worked?
  {
  }

  lemma CallingTurn(host: Host, t: Trade, i: nat, action: Action)
    requires TradeOk(host, t) && i < |t.turns| && Called(t.turns[i].step.id, action) in RunLaws.Trace(t.turns)
    ensures t.turns[i].visit.Worked?
  {
    var j := EventSource(t.turns, Called(t.turns[i].step.id, action));
    OneTurnPerId(host, t, i, j);
    CallsAreWork(t.turns[j], action);
  }

  // ----- When a trade starts, and with which settings -----

  /** The loop is entered exactly for plans that keep the validator's rules, are executable, and pay the
      user, when both tokens may be traded and, on an EVM source chain, there is a signer. */
  lemma StartsExactly(host: Host, lookups: Lookups, p: Plan, c: Caller)
    ensures MayStart(host, lookups, p, c) <==>
            && ValidatorLaws.PlanInOrder(host, lookups, p) && p.header.isExecutable
            && host.lower(c.user) ==
                 host.lower(GivenOr(p.header.extras.recipient, GivenOr(c.quotedRecipient, GivenOr(c.quotedUser, GivenOr(Some(c.user), "")))))
            && c.tokenInTradeable && c.tokenOutTradeable
            && match lookups.chain(p.header.sourceChainId)
               case Some(chain) => chain.environment == Some(EvmChain) ==> c.signer
               case None => true
  {
    ValidatorLaws.AcceptedExactly(host, lookups, p);
  }

  /** A run's settings are the caller's, but for what the plan decides. */
  lemma SettingsAre(lookups: Lookups, h: Header, asked: Params)
    ensures var pr := OnChains(lookups, h, asked);
            && (pr.sourceIsSolana <==> match lookups.chain(h.sourceChainId) case Some(c) => c.environment == Some(SolanaChain) case None => false)
            && (pr.crossChain <==> h.sourceChainId != h.destinationChainId)
            && (pr.unsupported <==> h.compositeExecutionMode == Some(Unsupported))
            && pr.destSigner == asked.destSigner && pr.skipDestinationWait == asked.skipDestinationWait
            && pr.hasBridgeQuote == asked.hasBridgeQuote && pr.actualOutput == asked.actualOutput
  {
  }

  // ----- What is known elsewhere -----

  /** The step's registry entry when the trade began. */
  function EntryAt(t: Trade, id: string): Option<Stored> { Entry(t.registry, t.plan.header.planId + ":" + id) }

  lemma TurnAnswered(host: Host, world: World, t: Trade, i: nat)
    requires TradeIn(host, world, t) && i < |t.turns|
    ensures AnsweredBy(DoneRule(host, t.params), world(t.turns[i].step.id), EntryAt(t, t.turns[i].step.id), t.turns[i])
  {
    var id := t.turns[i].step.id;
    assert Key(t.plan.header.planId, id) == t.plan.header.planId + ":" + id;
  }

  lemma KnownSuccess(rule: Rule, a: StepAnswers, entry: Option<Stored>, turn: Turn, hash: Option<string>)
    requires AnsweredBy(rule, a, entry, turn) && a.lease == Returned(true) && a.record == Returned(Some(Stored(Success, hash)))
    ensures turn.visit.Skip? && turn.ended.status == Success
    ensures GivenOr(turn.visit.hash, "") == GivenOr(hash, GivenOr(HashIn(entry), GivenOr(turn.step.txHash, "")))
  {
  }

  lemma WorkedNeeds(rule: Rule, a: StepAnswers, entry: Option<Stored>, turn: Turn)
    requires AnsweredBy(rule, a, entry, turn) && turn.visit.Worked?
    ensures a.lease == Returned(true) && a.uncertain == Returned(false) && turn.step.status != Success
    ensures a.record.Returned? && (a.record.value.Some? ==> a.record.value.value.status != Success)
    ensures entry.Some? ==> entry.value.status != Success
  {
  }

  /** A step the repository holds as SUCCESS is skipped and not executed again, and shows the first
      non-empty of the repository's, the registry's and its own hash. */
  lemma PersistedSuccessSkipped(host: Host, world: World, t: Trade, i: nat, hash: Option<string>)
    requires TradeIn(host, world, t) && i < |t.turns|
    requires world(t.turns[i].step.id).lease == Returned(true)
    requires world(t.turns[i].step.id).record == Returned(Some(Stored(Success, hash)))
    ensures t.turns[i].visit.Skip? && t.turns[i].ended.status == Success
    ensures GivenOr(t.turns[i].visit.hash, "") ==
            GivenOr(hash, GivenOr(HashIn(EntryAt(t, t.turns[i].step.id)), GivenOr(t.turns[i].step.txHash, "")))
    ensures forall action :: Called(t.turns[i].step.id, action) !in RunLaws.Trace(t.turns)
  {
    var id := t.turns[i].step.id;
    TurnAnswered(host, world, t, i);
    KnownSuccess(DoneRule(host, t.params), world(id), EntryAt(t, id), t.turns[i], hash);
    if action :| Called(id, action) in RunLaws.Trace(t.turns) { CallingTurn(host, t, i, action); }
  }

  /** A step whose lease is refused, or whose lease request throws, leaves no trace and ends the run. */
  lemma RefusedLeaseStops(host: Host, world: World, t: Trade, i: nat)
    requires TradeIn(host, world, t) && i < |t.turns| && world(t.turns[i].step.id).lease != Returned(true)
    ensures i == |t.turns| - 1 && t.turns[i].ended == t.turns[i].step
    ensures t.result == Threw(Stopped(if world(t.turns[i].step.id).lease == Returned(false) then LeaseConflict else StepError))
    ensures forall e :: e in RunLaws.Trace(t.turns) ==> e.id != t.turns[i].step.id
  {
    TurnAnswered(host, world, t, i);
    OnlyLastStops(host, t, i);
    if e :| e in RunLaws.Trace(t.turns) && e.id == t.turns[i].step.id {
      var j := EventSource(t.turns, e);
      OneTurnPerId(host, t, i, j);
    }
  }

  lemma OnlyLastStops(host: Host, t: Trade, i: nat)
    requires TradeOk(host, t) && i < |t.turns| && !t.turns[i].proceeds
    ensures i == |t.turns| - 1 && t.result.Threw?
  {
  }

  /** Nothing is called for a step unless its lease was granted, its record read, nothing of repository,
      registry and step says SUCCESS, and no transaction of it is uncertain. */
  lemma CallsNeed(host: Host, world: World, t: Trade, id: string, action: Action) returns (i: nat)
    requires TradeIn(host, world, t) && Called(id, action) in RunLaws.Trace(t.turns)
    ensures i < |t.turns| && t.turns[i].step.id == id && t.turns[i].step.status != Success
    ensures world(id).lease == Returned(true) && world(id).uncertain == Returned(false)
    ensures world(id).record.Returned? && (world(id).record.value.Some? ==> world(id).record.value.value.status != Success)
    ensures EntryAt(t, id).Some? ==> EntryAt(t, id).value.status != Success
  {
    i := EventSource(t.turns, Called(id, action));
    CallsAreWork(t.turns[i], action);
    TurnAnswered(host, world, t, i);
    WorkedNeeds(DoneRule(host, t.params), world(id), EntryAt(t, id), t.turns[i]);
  }

  /** A step with an uncertain transaction that nobody knows to be finished stops the run for recovery. */
  lemma UncertainStops(host: Host, world: World, t: Trade, i: nat, record: Option<Stored>)
    requires TradeIn(host, world, t) && i < |t.turns|
    requires var a := world(t.turns[i].step.id);
             a.lease == Returned(true) && a.record == Returned(record) && a.uncertain == Returned(true) && a.released
    requires record.Some? ==> record.value.status != Success
    requires EntryAt(t, t.turns[i].step.id).Some? ==> EntryAt(t, t.turns[i].step.id).value.status != Success
    requires t.turns[i].step.status != Success
    ensures i == |t.turns| - 1 && t.result == Threw(Stopped(RecoveryRequired)) && t.turns[i].ended == t.turns[i].step
    ensures forall action :: Called(t.turns[i].step.id, action) !in RunLaws.Trace(t.turns)
  {
    TurnAnswered(host, world, t, i);
    OnlyLastStops(host, t, i);
    if action :| Called(t.turns[i].step.id, action) in RunLaws.Trace(t.turns) { CallingTurn(host, t, i, action); }
  }

  // ----- What is sent is what is shown -----

  /** The deed of a step that was executed. */
  lemma DeedDone(host: Host, world: World, t: Trade, i: nat)
    requires TradeIn(host, world, t) && i < |t.turns| && t.turns[i].visit.Worked?
    ensures DoneBy(host, t.params, world(t.turns[i].step.id), DeedOf(t.turns[i]))
  {
    var id := t.turns[i].step.id;
    TurnAnswered(host, world, t, i);
    WorkedDone(DoneRule(host, t.params), world(id), EntryAt(t, id), t.turns[i]);
    RuleGives(host, t.params, world(id), DeedOf(t.turns[i]));
  }

  /** A step that was executed ends with the hash its send returned exactly when the send returned and
      `good` says so; a throwing send marks it FAILED. */
  predicate EndsWithSend(d: Deed, sent: Answer<Mined>, good: bool) {
    && (d.ended.status == Success <==> sent.Returned? && good)
    && (d.result.Some? <==> d.ended.status == Success)
    && (d.ended.status == Success ==>
          d.result == Some(Some(sent.value.txHash)) && d.ended.txHash == Some(sent.value.txHash) && d.after.txHash == sent.value.txHash)
    && (sent.Thrown? ==> d.ended.status == Failed && d.after == d.before)
  }

  lemma DepositDeed(host: Host, pr: Params, a: StepAnswers, d: Deed)
    requires DoneBy(host, pr, a, d) && d.step.kind == BridgeDeposit && a.starts
    ensures var amount := if d.before.output.Some? then Some(Decimal(d.before.output.value)) else d.step.requiredAmountRaw;
            && Did(Transact(amount)) in d.work && (forall w :: w in d.work && w.Did? ==> w.action == Transact(amount))
            && d.ended.requiredAmountRaw == amount && EndsWithSend(d, a.sent, true)
  {
  }

  /** A deposit that is sent moves the known output if there is one and the step's amount if not; the
      hash that is recorded, carried on and left on the step is the one its send returned. */
  lemma DepositSends(host: Host, world: World, t: Trade, i: nat)
    requires TradeIn(host, world, t) && i < |t.turns| && t.turns[i].step.kind == BridgeDeposit && t.turns[i].visit.Worked?
    requires world(t.turns[i].step.id).starts
    ensures var d := DeedOf(t.turns[i]);
            var amount := if d.before.output.Some? then Some(Decimal(d.before.output.value)) else d.step.requiredAmountRaw;
            && Did(Transact(amount)) in d.work && (forall w :: w in d.work && w.Did? ==> w.action == Transact(amount))
            && d.ended.requiredAmountRaw == amount && EndsWithSend(d, world(t.turns[i].step.id).sent, true)
  {
    DeedDone(host, world, t, i);
    DepositDeed(host, t.params, world(t.turns[i].step.id), DeedOf(t.turns[i]));
  }

  /** The output of a mined EVM swap is good unless it can be compared with a stated minimum and falls short. */
  predicate OutputGood(host: Host, a: StepAnswers, d: Deed) {
    a.sent.Returned? ==>
      var stated := d.step.minimumAmountOutRaw;
      if d.before.output.Some? then
        stated == None || stated == Some("") ||
          (host.bigInt(stated.value).Some? && d.before.output.value >= host.bigInt(stated.value).value)
      else if a.sent.value.hasReceipt && GivenOr(d.step.outputTokenAddress, "") != "" then
        var minimum := host.bigInt(GivenOr(stated, "0"));
        a.arrived.Some? && minimum.Some? && a.arrived.value >= minimum.value
      else true
  }

  lemma SwapDeed(host: Host, pr: Params, a: StepAnswers, d: Deed)
    requires DoneBy(host, pr, a, d) && d.step.kind == SourceSwap && !pr.sourceIsSolana && a.starts
    ensures d.work == [Did(Transact(d.step.requiredAmountRaw))] && EndsWithSend(d, a.sent, OutputGood(host, a, d))
    ensures d.ended.status == Success && d.before.output.None? && a.sent.value.hasReceipt && GivenOr(d.step.outputTokenAddress, "") != "" ==>
              d.after.output == a.arrived
    ensures d.before.output.Some? ==> d.after.output == d.before.output
  {
  }

  /** An EVM swap sends the step's amount once; it succeeds exactly when it is mined with a good output,
      which is then the output the run goes on with. */
  lemma SwapSends(host: Host, world: World, t: Trade, i: nat)
    requires TradeIn(host, world, t) && i < |t.turns| && t.turns[i].step.kind == SourceSwap && t.turns[i].visit.Worked?
    requires !t.params.sourceIsSolana && world(t.turns[i].step.id).starts
    ensures var d, a := DeedOf(t.turns[i]), world(t.turns[i].step.id);
            && d.work == [Did(Transact(d.step.requiredAmountRaw))] && EndsWithSend(d, a.sent, OutputGood(host, a, d))
            && (d.ended.status == Success && d.before.output.None? && a.sent.value.hasReceipt && GivenOr(d.step.outputTokenAddress, "") != "" ==>
                  d.after.output == a.arrived)
            && (d.before.output.Some? ==> d.after.output == d.before.output)
  {
    DeedDone(host, world, t, i);
    SwapDeed(host, t.params, world(t.turns[i].step.id), DeedOf(t.turns[i]));
  }
}
