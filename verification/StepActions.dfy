/** The cases of the switch over step types in executeTrade: what each kind of step does to the
    outside world, to the plan and to the run's locals. */
module StepActions {
  import opened Js
  import opened PlanModel
  import opened CanonicalJson
  import opened RunModel
  import opened Environment
  import opened StepRules
  import opened StepWrites
  import PlanSeal

  /** How the switch ended. StepFailed paths mark the step FAILED before throwing, with the step's
      new error text; Escaped paths throw and leave the step as it was. */
  datatype Attempt =
    | Succeeded(stepTx: Option<string>, registryTx: Option<string>)
    | StepFailed(error: Option<string>)
    | Escaped

  function ResultOf(att: Attempt): Option<Option<string>> {
    if att.Succeeded? then Some(att.registryTx) else None
  }

  /** The step as an attempt leaves it. */
  function Concluded(s: Step, att: Attempt): Step {
    match att
    case Succeeded(tx, _) => s.(status := Success, txHash := tx)
    case StepFailed(error) => s.(status := Failed, error := error)
    case Escaped => s
  }

  function Carried(st: RunState): Locals { Locals(st.txHash, st.destTxHash, st.output) }

  /** An attempt on a step, as the rules see it. */
  function DeedFor(s: Step, st: RunState, work: seq<Work>, att: Attempt, st2: RunState): Deed {
    Deed(s, Carried(st), work, ResultOf(att), Concluded(s, att), Carried(st2))
  }

  ghost predicate NoSealWork(work: seq<Work>) {
    Resealed !in work && Unsealed !in work
  }

  ghost predicate MeetsMinimum(host: Host, s: Step, output: Option<int>) {
    output.Some? && Truthy(s.minimumAmountOutRaw) ==>
      && host.bigInt(s.minimumAmountOutRaw.value).Some?
      && host.bigInt(s.minimumAmountOutRaw.value).value <= output.value
  }

  /** The approval sent when the allowance is short: the step's own call, or a plain approve of the exact amount. */
  function ApprovalAction(s: Step): Action
    requires s.requiredAmountRaw.Some?
  {
    if Truthy(s.calldata) && s.calldata.value != "0x" then Transact(s.requiredAmountRaw) else ApproveToken(s.requiredAmountRaw.value)
  }

  /** The approval's send: the adapter's hash for the step's own call, else whatever approve yields. */
  method SendAllowance(s: Step, recordHash: bool, a: StepAnswers) returns (stepTx: Option<string>, thrown: bool)
    requires s.requiredAmountRaw.Some?
    ensures ApprovalAction(s).Transact? ==> thrown == a.sent.Thrown?
    ensures ApprovalAction(s).ApproveToken? ==> thrown == a.approved.Thrown?
    ensures ApprovalAction(s).Transact? && !thrown ==> stepTx == if recordHash then Some(a.sent.value.txHash) else s.txHash
    ensures ApprovalAction(s).ApproveToken? && !thrown ==> stepTx == a.approved.value
  {
    stepTx, thrown := s.txHash, true;
    if Truthy(s.calldata) && s.calldata.value != "0x" {
      if a.sent.Returned? {
        thrown := false;
        if recordHash { stepTx := Some(a.sent.value.txHash); }
      }
    } else {
      if a.approved.Returned? { thrown, stepTx := false, a.approved.value; }
    }
  }

  /** APPROVAL and SOURCE_APPROVAL (recordHash), and DESTINATION_APPROVAL. No case marks the step
      FAILED: a status, a read, a parse or a send that throws ends the run with the step as it was. */
  method DoApproval(host: Host, s: Step, signer: bool, recordHash: bool, a: StepAnswers, ghost st: RunState)
    returns (att: Attempt, ghost work: seq<Work>)
    ensures ApprovalBy(host, a, DeedFor(s, st, work, att, st), signer, recordHash)
    ensures NoSealWork(work) && !att.StepFailed?
  {
    work := [];
    if s.environment != EVM || !signer || !Truthy(s.requiredTokenAddress) || !Truthy(s.approvalTarget) || !Truthy(s.requiredAmountRaw) {
      return Succeeded(s.txHash, None), work;
    }
    if !a.starts { return Escaped, work; }
    work := [Did(CheckAllowance)];
    var required := host.bigInt(s.requiredAmountRaw.value);
    if a.allowance.Thrown? || required.None? { return Escaped, work; }
    var stepTx := s.txHash;
    if a.allowance.value < required.value {
      work := [Did(CheckAllowance), Did(ApprovalAction(s))];
      var thrown;
      stepTx, thrown := SendAllowance(s, recordHash, a);
      if thrown { return Escaped, work; }
    }
    att := Succeeded(stepTx, if recordHash then stepTx else None);
  }

  /** The EVM swap's bookkeeping of its output once the transaction is mined. */
  method SettleSwapOutput(host: Host, s: Step, hasReceipt: bool, output: Option<int>, a: StepAnswers) returns (ok: bool, known: Option<int>)
    ensures var looks := output.None? && hasReceipt && Truthy(s.outputTokenAddress);
      ok <==> if looks then AtLeast(StatedMinimum(host, s), a.arrived)
              else output.None? || !Truthy(s.minimumAmountOutRaw) || AtLeast(StatedMinimum(host, s), output)
    ensures known == if ok && output.None? && hasReceipt && Truthy(s.outputTokenAddress) then a.arrived else output
    ensures ok ==> MeetsMinimum(host, s, known)
  {
    known := output;
    if output.None? && hasReceipt && Truthy(s.outputTokenAddress) {
      var minimum := host.bigInt(if Truthy(s.minimumAmountOutRaw) then s.minimumAmountOutRaw.value else "0");
      if a.arrived.None? || minimum.None? || a.arrived.value < minimum.value { return false, None; }
      known := a.arrived;
    } else if output.Some? && Truthy(s.minimumAmountOutRaw) {
      var minimum := host.bigInt(s.minimumAmountOutRaw.value);
      if minimum.None? || output.value < minimum.value { return false, output; }
    }
    ok := true;
  }

  /** SOURCE_SWAP. A mined swap whose output cannot be established still fails the step. */
  method DoSourceSwap(host: Host, s: Step, solana: bool, a: StepAnswers, st: RunState) returns (att: Attempt, st2: RunState, ghost work: seq<Work>)
    ensures SwapBy(host, solana, a, DeedFor(s, st, work, att, st2)) && st2.stepState == st.stepState
    ensures NoSealWork(work) && (att.Succeeded? ==> Truthy(att.registryTx) && st2.txHash == att.registryTx.value)
    ensures st2.destTxHash == st.destTxHash && (st.output.Some? || solana ==> st2.output == st.output)
    ensures att.Succeeded? && !solana ==> MeetsMinimum(host, s, st2.output)
  {
    st2, work := st, [];
    if solana {
      work := [Did(SolanaSwap)];
      if a.sent.Thrown? { return Escaped, st2.(txHash := if Truthy(a.reported) then a.reported.value else st.txHash), work; }
      st2 := st2.(txHash := a.sent.value.txHash);
    } else {
      if !a.starts { return Escaped, st2, work; }
      work := [Did(Transact(s.requiredAmountRaw))];
      if a.sent.Thrown? { return StepFailed(a.message), st2, work; }
      var ok, known := SettleSwapOutput(host, s, a.sent.value.hasReceipt, st.output, a);
      st2 := st2.(txHash := a.sent.value.txHash, output := known);
      if !ok { return StepFailed(a.message), st2, work; }
    }
    att := Succeeded(Some(a.sent.value.txHash), Some(a.sent.value.txHash));
  }

  /** BRIDGE_QUOTE_REFRESH, what it leaves behind on success. */
  ghost predicate RefreshOk(host: Host, hash: Plan -> string, before: Plan, after: Plan, amount: string, resealed: bool, unsealed: bool) {
    var d := DepositOf(before.steps);
    && DepositOf(after.steps) == (if d.NoDeposit? then NoDeposit else Amount(Some(amount)))
    && (resealed ==> SealedNow(hash, after) && !unsealed)
    && (!resealed ==> (unsealed <==> d.Amount? && OrEmpty(d.raw) != amount))
    && (!resealed && !unsealed ==> SealedNow(hash, after) == SealedNow(hash, before))
    && (unsealed && SealedNow(hash, before) && host.CollisionFree() ==> !SealedNow(hash, after))
  }

  method DoRefresh(host: Host, ghost hash: Plan -> string, plan: ExecutionPlan, s: Step, a: StepAnswers, st: RunState)
    returns (att: Attempt, st2: RunState, ghost work: seq<Work>)
    requires IsPlanHash(host, hash)
    requires Separate(plan) && UniqueIds(plan.Steps()) && Mirrors(plan.Steps(), st.stepState)
    modifies plan, plan.steps
    ensures RefreshBy(a, DeedFor(s, st, work, att, st2))
    ensures forall n :: Did(RequestQuote(n)) in work ==> n == AskedAmount(s, st.output)
    ensures !att.StepFailed? && (att.Succeeded? ==> att.registryTx == None)
    ensures att.Escaped? ==> plan.View() == old(plan.View()) && st2 == st && NoSealWork(work)
    ensures att.Succeeded? ==>
      && SamePlan(old(plan.View()), plan.View()) && SameProgress(old(plan.Steps()), plan.Steps()) && OthersAlike(old(plan.Steps()), plan.Steps())
      && Mirrors(plan.Steps(), st2.stepState) && st2 == st.(stepState := st2.stepState)
      && RefreshOk(host, hash, old(plan.View()), plan.View(), AskedAmount(s, st.output), Resealed in work, Unsealed in work)
  {
    var amount := AskedAmount(s, st.output);
    if !a.starts { return Escaped, st, []; }
    var quote;
    quote, work := FetchQuote(amount, a);
    if quote.Thrown? { return Escaped, st, work; }
    ghost var write;
    st2, write := Adopt(host, hash, plan, quote.value, amount, st);
    AskedThenWrote(a, work, write);
    work := work + write;
    att := Succeeded(s.txHash, None);
  }

  /** A successful refresh's work: what it asked, then what it wrote. */
  lemma AskedThenWrote(a: StepAnswers, work: seq<Work>, write: seq<Work>)
    requires a.quote.Returned? && (a.quote.value.Some? ==> a.quote.value.value.executable && a.built)
    requires |work| == (if a.quote.value.Some? then 2 else 1) && work[0].Did? && work[0].action.RequestQuote?
    requires a.quote.value.Some? ==> work[1] == Did(BuildExecution)
    requires if a.quote.value.Some? then write == [Resealed] else write in {[], [Unsealed]}
    ensures a.quote.value.Some? ==> work + write == [work[0], Did(BuildExecution), Resealed]
    ensures a.quote.value.None? ==> work + write in {[work[0]], [work[0], Unsealed]}
    ensures Resealed in work + write <==> Resealed in write
    ensures Unsealed in work + write <==> Unsealed in write
    ensures forall n :: Did(RequestQuote(n)) in work + write ==> work[0] == Did(RequestQuote(n))
  {
    assert a.quote.value.None? ==> work == [work[0]];
    if write == [] { assert work + write == work; } else { assert a.quote.value.None? ==> work + write == [work[0], Unsealed]; }
  }

  /** A fresh quote that passes the executability checks and has its execution built, or none at all. */
  method FetchQuote(amount: string, a: StepAnswers) returns (quote: Answer<Option<Refreshed>>, ghost work: seq<Work>)
    ensures quote == if a.quote.Returned? && a.quote.value.Some? && !(a.quote.value.value.executable && a.built) then Thrown else a.quote
    ensures work == [Did(RequestQuote(amount))]
                    + (if a.quote.Returned? && a.quote.value.Some? && a.quote.value.value.executable then [Did(BuildExecution)] else [])
  {
    quote := a.quote;
    work := [Did(RequestQuote(amount))];
    if quote.Thrown? || quote.value.None? { return; }
    if !quote.value.value.executable { return Thrown, work; }
    work := work + [Did(BuildExecution)];
    if !a.built { quote := Thrown; }
  }

  lemma OnlyDeposit(before: seq<Step>, after: seq<Step>, q: Refreshed, amount: string)
    requires var d := FindKind(before, BridgeDeposit);
             after == if d.Some? then before[d.value := Redirected(before[d.value], amount, q)] else before
    ensures OthersAlike(before, after)
  {
  }

  /** Steps other than deposits are as they were. */
  predicate OthersAlike(before: seq<Step>, after: seq<Step>) {
    |before| == |after| && forall i :: 0 <= i < |before| && before[i].kind != BridgeDeposit ==> after[i] == before[i]
  }

  /** The refresh's writes, with a quote or without. */
  method Adopt(host: Host, ghost hash: Plan -> string, plan: ExecutionPlan, quote: Option<Refreshed>, amount: string, st: RunState)
    returns (st2: RunState, ghost write: seq<Work>)
    requires IsPlanHash(host, hash)
    requires Separate(plan) && UniqueIds(plan.Steps()) && Mirrors(plan.Steps(), st.stepState)
    modifies plan, plan.steps
    ensures SamePlan(old(plan.View()), plan.View()) && SameProgress(old(plan.Steps()), plan.Steps())
    ensures OthersAlike(old(plan.Steps()), plan.Steps())
    ensures Mirrors(plan.Steps(), st2.stepState) && st2 == st.(stepState := st2.stepState)
    ensures if quote.Some? then write == [Resealed] else write in {[], [Unsealed]}
    ensures RefreshOk(host, hash, old(plan.View()), plan.View(), amount, Resealed in write, Unsealed in write)
  {
    if quote.Some? {
      ghost var before := plan.Steps();
      st2 := AdoptQuote(host, hash, plan, quote.value, amount, st);
      write := [Resealed];
      OnlyDeposit(before, plan.Steps(), quote.value, amount);
    } else {
      ghost var changed;
      st2, changed := AdoptAmount(host, hash, plan, amount, st);
      write := if changed then [Unsealed] else [];
    }
  }

  /** A refreshed quote is written into the first deposit and the plan, which is then sealed anew. */
  method AdoptQuote(host: Host, ghost hash: Plan -> string, plan: ExecutionPlan, q: Refreshed, amount: string, st: RunState) returns (st2: RunState)
    requires IsPlanHash(host, hash)
    requires Separate(plan) && UniqueIds(plan.Steps()) && Mirrors(plan.Steps(), st.stepState)
    modifies plan, plan.steps
    ensures SamePlan(old(plan.View()), plan.View()) && SameProgress(old(plan.Steps()), plan.Steps())
    ensures Mirrors(plan.Steps(), st2.stepState) && st2 == st.(stepState := st2.stepState)
    ensures RefreshOk(host, hash, old(plan.View()), plan.View(), amount, true, false)
    ensures plan.header.expectedAmountOutRaw == q.destinationAmountRaw && plan.header.minimumAmountOutRaw == q.minDestinationAmountRaw
    ensures var d := FindKind(old(plan.Steps()), BridgeDeposit);
            plan.Steps() == old(if d.Some? then plan.Steps()[d.value := Redirected(plan.Steps()[d.value], amount, q)] else plan.Steps())
  {
    st2 := st;
    var d := FindKind(plan.Steps(), BridgeDeposit);
    if d.Some? {
      st2 := UpdateDeposit(plan, d.value, Redirected(plan.steps[d.value].fields, amount, q), st);
    }
    ghost var steps := plan.Steps();
    plan.header := plan.header.(expectedAmountOutRaw := q.destinationAmountRaw, minimumAmountOutRaw := q.minDestinationAmountRaw);
    assert plan.Steps() == steps;
    assert HashAgrees(host, hash, plan.View());
    PlanSeal.SealPlan(host, plan);
    assert HashAgrees(host, hash, plan.View());
    assert plan.Steps() == steps;
  }

  /** Without a quote only the first deposit's amount is written, and the plan is not sealed anew. */
  method AdoptAmount(host: Host, ghost hash: Plan -> string, plan: ExecutionPlan, amount: string, st: RunState) returns (st2: RunState, ghost changed: bool)
    requires IsPlanHash(host, hash)
    requires Separate(plan) && UniqueIds(plan.Steps()) && Mirrors(plan.Steps(), st.stepState)
    modifies plan.steps
    ensures SamePlan(old(plan.View()), plan.View()) && SameProgress(old(plan.Steps()), plan.Steps())
    ensures OthersAlike(old(plan.Steps()), plan.Steps())
    ensures Mirrors(plan.Steps(), st2.stepState) && st2 == st.(stepState := st2.stepState)
    ensures RefreshOk(host, hash, old(plan.View()), plan.View(), amount, false, changed)
  {
    st2, changed := st, false;
    var d := FindKind(plan.Steps(), BridgeDeposit);
    if d.Some? {
      ghost var p := plan.View();
      AmountWrite(host, hash, p, d.value, amount);
      changed := OrEmpty(p.steps[d.value].requiredAmountRaw) != amount;
      st2 := UpdateDeposit(plan, d.value, plan.steps[d.value].fields.(requiredAmountRaw := Some(amount)), st);
      assert plan.View() == p.(steps := WithAmount(p.steps, d.value, amount));
    }
  }

  /** The deposit with a refreshed quote's amount and, where given, its call. */
  function Redirected(s: Step, amount: string, q: Refreshed): Step {
    s.(requiredAmountRaw := Some(amount),
       targetAddress := Or(q.target, s.targetAddress),
       calldata := Or(q.calldata, s.calldata),
       approvalTarget := Or(q.approvalTarget, s.approvalTarget))
  }

  /** A redirected deposit takes the new amount, and each part of the quote's call that the quote gives. */
  lemma RedirectedSays(s: Step, amount: string, q: Refreshed)
    ensures var t := Redirected(s, amount, q);
            && t.requiredAmountRaw == Some(amount)
            && t.targetAddress == (if q.target == None || q.target == Some("") then s.targetAddress else q.target)
            && t.calldata == (if q.calldata == None || q.calldata == Some("") then s.calldata else q.calldata)
            && t.approvalTarget == (if q.approvalTarget == None || q.approvalTarget == Some("") then s.approvalTarget else q.approvalTarget)
            && SameStep(s, t) && t.status == s.status && t.txHash == s.txHash && t.error == s.error
  {
  }

  /** Writes the first deposit's step object and copies it into the step map. */
  method UpdateDeposit(plan: ExecutionPlan, d: nat, s: Step, st: RunState) returns (st2: RunState)
    requires Separate(plan) && UniqueIds(plan.Steps()) && Mirrors(plan.Steps(), st.stepState)
    requires FindKind(plan.Steps(), BridgeDeposit) == Some(d)
    requires SameStep(plan.Steps()[d], s) && SameProgress([plan.Steps()[d]], [s])
    modifies plan.steps[d]
    ensures plan.View() == old(plan.View()).(steps := old(plan.Steps())[d := s])
    ensures SameSteps(old(plan.Steps()), plan.Steps()) && SameProgress(old(plan.Steps()), plan.Steps())
    ensures Mirrors(plan.Steps(), st2.stepState) && st2 == st.(stepState := st2.stepState)
    ensures DepositOf(plan.Steps()) == Amount(s.requiredAmountRaw)
  {
    assert [plan.Steps()[d]][0].status == [s][0].status;
    assert [plan.Steps()[d]][0].txHash == [s][0].txHash && [plan.Steps()[d]][0].error == [s][0].error;
    MirrorWrite(plan.Steps(), st.stepState, d, s);
    DepositWrite(plan.Steps(), d, s);
    SetStep(plan, d, s);
    st2 := st.(stepState := st.stepState[s.id := s.status]);
  }

  /** The deposit's amount differs from the known swap output. */
  predicate Mismatched(s: Step, output: Option<int>) {
    output.Some? && OrEmpty(s.requiredAmountRaw) != Decimal(output.value)
  }

  /** A mismatched amount is rewritten, without a new seal, before the deposit transacts, if it does. */
  function DepositWork(s: Step, output: Option<int>, called: bool): seq<Work> {
    (if Mismatched(s, output) then [Unsealed] else [])
    + (if called then [Did(Transact(if output.Some? then Some(Decimal(output.value)) else s.requiredAmountRaw))] else [])
  }

  function DepositPlan(p: Plan, k: nat, output: Option<int>): Plan
    requires k < |p.steps|
  {
    if Mismatched(p.steps[k], output) then p.(steps := WithAmount(p.steps, k, Decimal(output.value))) else p
  }

  /** BRIDGE_DEPOSIT: fixes its amount to the known swap output, then transacts with it, unless the
      state machine refuses the signing. */
  method DoDeposit(plan: ExecutionPlan, k: nat, a: StepAnswers, st: RunState)
    returns (att: Attempt, st2: RunState, ghost work: seq<Work>)
    requires Separate(plan) && k < |plan.steps|
    modifies plan.steps[k]
    ensures DepositBy(a, DeedFor(old(plan.steps[k].fields), st, work, att, st2).(ended := Concluded(plan.steps[k].fields, att)))
    ensures Unsealed in work <==> st.output.Some? && OrEmpty(old(plan.steps[k].fields.requiredAmountRaw)) != Decimal(st.output.value)
    ensures plan.View() == old(plan.View()).(steps := if Unsealed in work then WithAmount(old(plan.Steps()), k, Decimal(st.output.value)) else old(plan.Steps()))
    ensures st2 == st.(txHash := st2.txHash) && (att.Escaped? ==> st2 == st)
    ensures att.Succeeded? ==> Truthy(att.registryTx) && att.stepTx == att.registryTx && st2.txHash == att.registryTx.value
    ensures work == DepositWork(old(plan.steps[k].fields), st.output, !att.Escaped?)
    ensures plan.View() == DepositPlan(old(plan.View()), k, st.output)
  {
    st2, work := st, [];
    var s := plan.steps[k].fields;
    if st.output.Some? && s.requiredAmountRaw != Some(Decimal(st.output.value)) {
      s := s.(requiredAmountRaw := Some(Decimal(st.output.value)));
      SetStep(plan, k, s);
      work := [Unsealed];
    }
    assert plan.Steps()[k] == s;
    if !a.starts { return Escaped, st2, work; }
    work := work + [Did(Transact(s.requiredAmountRaw))];
    if a.sent.Thrown? { return StepFailed(a.message), st2, work; }
    st2 := st2.(txHash := a.sent.value.txHash);
    att := Succeeded(Some(a.sent.value.txHash), Some(a.sent.value.txHash));
  }

  /** The deposit keeps a seal exactly when it has nothing to rewrite. */
  lemma DepositKeepsSealExactly(host: Host, hash: Plan -> string, p: Plan, k: nat, output: Option<int>)
    requires IsPlanHash(host, hash) && host.CollisionFree() && k < |p.steps| && SealedNow(hash, p)
    ensures SealedNow(hash, DepositPlan(p, k, output)) <==> !Mismatched(p.steps[k], output)
  {
    if output.Some? { AmountWrite(host, hash, p, k, Decimal(output.value)); }
  }

  /** A plan that deposits an amount of 1. */
  const DEPOSITS_ONE := Plan(
    Header("p", "r", CrossChainDirect, "polygon", "base", SAMPLE_TOKEN, SAMPLE_TOKEN, "1", "1", "1", true, None, None, None, None, None, None, None,
           None, None, None, None, None, Extras(None, None, None, None, None, None, None, None, None, None, None, None)),
    [Step("bridge", BridgeDeposit, "polygon", None, EVM, [], None, None, None, None, None, Some("1"), None, None, None, NotStarted, None, None)])

  /** Sealed, and run with a known output of 2, it loses its seal. */
  lemma DepositLosesSeal(host: Host)
    requires host.CollisionFree()
    ensures var p := PlanSeal.Sealed(host, DEPOSITS_ONE);
            SealedNow(PlanHash(host), p) && !SealedNow(PlanHash(host), DepositPlan(p, 0, Some(2)))
  {
    var p := PlanSeal.Sealed(host, DEPOSITS_ONE);
    PlanSeal.SealVerifiesAndIsIdempotent(host, DEPOSITS_ONE);
    assert HashAgrees(host, PlanHash(host), p);
    assert Decimal(2) == "2" && OrEmpty(p.steps[0].requiredAmountRaw) == "1";
    DepositKeepsSealExactly(host, PlanHash(host), p, 0, Some(2));
  }

  /** BRIDGE_RELAY_WAIT */
  method DoRelayWait(s: Step, p: Params, a: StepAnswers, st: RunState) returns (att: Attempt, st2: RunState, ghost work: seq<Work>)
    ensures RelayBy(p, a, DeedFor(s, st, work, att, st2)) && NoSealWork(work)
    ensures st2 == st.(destTxHash := st2.destTxHash)
    ensures att.Succeeded? ==> st2.destTxHash == NextDestHash(BridgeRelayWait, st.destTxHash, att.registryTx)
  {
    st2, work := st, [];
    if !a.starts { return Escaped, st2, work; }
    work := [Did(RegisterOrder)];
    if p.skipDestinationWait || !p.hasBridgeQuote { return Succeeded(s.txHash, None), st2, work; }
    work := [Did(RegisterOrder), Did(TrackOrder)];
    if a.tracked.Thrown? { return Escaped, st2, work; }
    if a.tracked.value.Settled? && Truthy(a.tracked.value.destTxHash) {
      st2 := st2.(destTxHash := a.tracked.value.destTxHash);
      att := Succeeded(a.tracked.value.destTxHash, a.tracked.value.destTxHash);
    } else {
      att := StepFailed(s.error);
    }
  }

  /** DESTINATION_SWAP, by the user's destination signer or by a solver. A status callback of the
      signer's adapter may store a hash before the send fails. */
  method DoDestinationSwap(s: Step, p: Params, a: StepAnswers, st: RunState) returns (att: Attempt, st2: RunState, ghost work: seq<Work>)
    ensures DestinationSwapBy(p, a, DeedFor(s, st, work, att, st2)) && NoSealWork(work)
    ensures st2 == st.(destTxHash := st2.destTxHash)
    ensures att.Succeeded? ==> Truthy(att.registryTx) && st2.destTxHash == att.registryTx
  {
    st2, work := st, [];
    if p.unsupported { return Escaped, st2, work; }
    if !a.starts { return StepFailed(s.error), st2, work; }
    work := [Did(if p.destSigner then Transact(s.requiredAmountRaw) else SolverExecution)];
    if a.sent.Thrown? {
      if p.destSigner && Truthy(a.reported) { st2 := st2.(destTxHash := a.reported); }
      return StepFailed(s.error), st2, work;
    }
    st2 := st2.(destTxHash := Some(a.sent.value.txHash));
    att := Succeeded(st2.destTxHash, st2.destTxHash);
  }

  /** DESTINATION_VERIFY */
  method DoVerify(s: Step, p: Params, a: StepAnswers, st: RunState) returns (att: Attempt, ghost work: seq<Work>)
    ensures VerifyBy(p, a, DeedFor(s, st, work, att, st)) && NoSealWork(work)
    ensures att.Succeeded? ==> att.registryTx == None
  {
    work := [];
    if p.crossChain && !p.skipDestinationWait && s.environment == EVM && Truthy(st.destTxHash) {
      work := [Did(VerifySettlement)];
      if a.verified.Thrown? { return Escaped, work; }
      if !a.verified.value { return StepFailed(s.error), work; }
    }
    att := Succeeded(s.txHash, None);
  }
}
