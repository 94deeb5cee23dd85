/** ExecutionCoordinator.executeTrade: the step loop over shared plan objects. */
module Coordinator {
  import opened Js
  import opened PlanModel
  import opened CanonicalJson
  import opened RunModel
  import opened Environment
  import opened StepRules
  import opened StepWrites
  import opened StepActions
  import opened TurnRules
  import PlanGraph
  import KahnOrder
  import PlanSeal
  import PlanValidator
  import RunLaws

  /** Why the step loop stopped. */
  datatype Stop = DependencyBlocked | LeaseConflict | RecoveryRequired | StepError

  /** Which of its errors an iteration past the dependency guard stops the run with. A release that throws
      takes the place of whatever the step threw. */
  predicate StoppedBy(a: StepAnswers, t: Turn, stop: Stop) {
    stop == if a.lease == Returned(false) then LeaseConflict
            else if t.visit.UncertainBroadcast? && a.released then RecoveryRequired
            else StepError
  }

  datatype TradeError = Invalid(error: PlanValidator.ValidationError) | Gated | Stopped(stop: Stop)

  datatype ReceiptStatus = COMPLETED | BRIDGE_IN_FLIGHT

  datatype Receipt = Receipt(txHash: string, destTxHash: Option<string>, status: ReceiptStatus)

  datatype TradeResult = Finished(receipt: Receipt) | Threw(error: TradeError)

  function ReceiptOf(p: Plan, b: Bound): Receipt {
    Receipt(b.txHash, b.destTxHash, if CrossChain(p) && !Truthy(b.destTxHash) then BRIDGE_IN_FLIGHT else COMPLETED)
  }

  predicate CrossChain(p: Plan) { p.header.sourceChainId != p.header.destinationChainId }

  // ----- Before the loop -----

  /** What the checks between validation and the loop read: the wallet, whom the quote pays, the risk
      engine's verdicts, and whether there is a signer. */
  datatype Caller = Caller(
    user: string, quotedRecipient: Option<string>, quotedUser: Option<string>,
    tokenInTradeable: bool, tokenOutTradeable: bool, signer: bool)

  /** Whom the trade pays: the plan's own recipient, else the quote's, else the user. */
  function ExpectedRecipient(h: Header, c: Caller): string {
    OrEmpty(Or(h.extras.recipient, Or(c.quotedRecipient, Or(c.quotedUser, Some(c.user)))))
  }

  /** An EVM source chain needs a signer; no other chain asks for one here. */
  predicate SignerMissing(lookups: Lookups, h: Header, c: Caller) {
    var chain := lookups.chain(h.sourceChainId);
    chain.Some? && chain.value.environment == Some(EvmChain) && !c.signer
  }

  predicate GatesOpen(host: Host, lookups: Lookups, h: Header, c: Caller) {
    && host.lower(c.user) == host.lower(ExpectedRecipient(h, c))
    && c.tokenInTradeable && c.tokenOutTradeable && !SignerMissing(lookups, h, c)
  }

  /** The loop is entered exactly for plans that are accepted, executable, and pay the user. */
  ghost predicate MayStart(host: Host, lookups: Lookups, p: Plan, c: Caller) {
    PlanValidator.Accepted(host, lookups, p) && p.header.isExecutable && GatesOpen(host, lookups, p.header, c)
  }

  /** The caller's settings, with what the plan itself decides. */
  function OnChains(lookups: Lookups, h: Header, pr: Params): Params {
    pr.(sourceIsSolana := OnSolana(lookups.chain(h.sourceChainId)), crossChain := h.sourceChainId != h.destinationChainId,
        unsupported := h.compositeExecutionMode == Some(Unsupported))
  }

  // ----- The switch over step types -----

  /** Every case but the two that touch hashed fields. */
  method QuietSwitch(host: Host, s: Step, pr: Params, a: StepAnswers, st: RunState)
    returns (att: Attempt, st2: RunState, ghost work: seq<Work>)
    requires s.kind != BridgeQuoteRefresh && s.kind != BridgeDeposit
    ensures DoneBy(host, pr, a, DeedFor(s, st, work, att, st2))
    ensures NoSealWork(work) && st2.stepState == st.stepState
    ensures att.Succeeded? ==>
      && st2.txHash == NextTxHash(s.kind, st.txHash, att.registryTx)
      && st2.destTxHash == NextDestHash(s.kind, st.destTxHash, att.registryTx)
    ensures st.output.Some? || s.kind != SourceSwap ==> st2.output == st.output
    ensures att.Succeeded? && s.kind == SourceSwap && !pr.sourceIsSolana ==> MeetsMinimum(host, s, st2.output)
  {
    st2 := st;
    match s.kind
    case Validation => att, work := if a.starts then Succeeded(s.txHash, None) else Escaped, [];
    case Approval | SourceApproval => att, work := DoApproval(host, s, true, true, a, st);
    case DestinationApproval => att, work := DoApproval(host, s, pr.destSigner, false, a, st);
    case SourceSwap => att, st2, work := DoSourceSwap(host, s, pr.sourceIsSolana, a, st);
    case BridgeRelayWait => att, st2, work := DoRelayWait(s, pr, a, st);
    case DestinationSwap => att, st2, work := DoDestinationSwap(s, pr, a, st);
    case DestinationVerify => att, work := DoVerify(s, pr, a, st);
    case _ => att, work := Succeeded(s.txHash, None), [];
  }

  /** The turn of an executed step. */
  ghost function WorkedTurn(stored: Option<Stored>, s: Step, before: Bound, work: seq<Work>, att: Attempt, after: Bound, ended: Step): Turn {
    Turn(s, before, Worked(stored, work, ResultOf(att)), true, att.Succeeded?, after, ended)
  }

  lemma QuietTurn(host: Host, solana: bool, t: Turn)
    requires t.visit.Worked? && NoSealWork(t.visit.work)
    requires t.step.kind != BridgeQuoteRefresh && t.step.kind != BridgeDeposit
    requires t.after.sealed == t.before.sealed && t.after.deposit == t.before.deposit
    requires t.released && t.proceeds == t.visit.result.Some? && ProceedsOk(t)
    requires t.before.output.Some? || t.step.kind != SourceSwap ==> t.after.output == t.before.output
    requires t.proceeds && t.step.kind == SourceSwap && !solana ==> MeetsMinimum(host, t.step, t.after.output)
    ensures TurnOk(host, solana, t)
  {
  }

  lemma RefreshTurn(host: Host, hash: Plan -> string, solana: bool, t: Turn, p: Plan, q: Plan, st: RunState)
    requires t.visit.Worked? && t.step.kind == BridgeQuoteRefresh
    requires t.before == BoundOf(hash, p, st) && t.after.sealed == SealedNow(hash, q) && t.after.deposit == DepositOf(q.steps)
    requires t.after == t.before.(sealed := t.after.sealed, deposit := t.after.deposit)
    requires t.released && t.proceeds == t.visit.result.Some? && (t.proceeds ==> t.visit.result == Some(None))
    requires forall a :: Did(RequestQuote(a)) in t.visit.work ==> a == AskedAmount(t.step, st.output)
    requires !t.proceeds ==> p == q && NoSealWork(t.visit.work)
    requires t.proceeds ==> RefreshOk(host, hash, p, q, AskedAmount(t.step, st.output), Resealed in t.visit.work, Unsealed in t.visit.work)
    ensures TurnOk(host, solana, t)
  {
    assert RefreshAmount(t) == AskedAmount(t.step, st.output);
  }

  lemma DepositTurn(host: Host, hash: Plan -> string, solana: bool, t: Turn, p: Plan, q: Plan, st: RunState, k: nat, called: bool)
    requires IsPlanHash(host, hash)
    requires t.released && t.visit.Worked? && t.step.kind == BridgeDeposit && k < |p.steps| && t.step == p.steps[k]
    requires t.before == BoundOf(hash, p, st) && t.after.sealed == SealedNow(hash, q)
    requires t.after.output == st.output && t.after.destTxHash == st.destTxHash
    requires t.proceeds ==> Some(Some(t.after.txHash)) == t.visit.result && t.after.txHash != ""
    requires t.visit.work == DepositWork(t.step, st.output, called) && q == DepositPlan(p, k, st.output)
    ensures TurnOk(host, solana, t)
  {
    if Mismatched(t.step, st.output) { AmountWrite(host, hash, p, k, Decimal(st.output.value)); }
  }

  /** What the switch leaves behind: p and q are the plan before and after it. */
  ghost predicate SwitchOk(host: Host, hash: Plan -> string, pr: Params, p: Plan, q: Plan, k: nat, st: RunState, st2: RunState,
                           stored: Option<Stored>, att: Attempt, turn: Turn)
    requires k < |p.steps| && k < |q.steps|
  {
    && SamePlan(p, q) && SameProgress(p.steps, q.steps) && Mirrors(q.steps, st2.stepState)
    && turn.visit.Worked?
    && turn == WorkedTurn(stored, p.steps[k], BoundOf(hash, p, st), turn.visit.work, att, BoundOf(hash, q, st2), Concluded(q.steps[k], att))
    && TurnOk(host, pr.sourceIsSolana, turn)
  }

  lemma SamePlanRefl(p: Plan)
    ensures SamePlan(p, p) && SameProgress(p.steps, p.steps)
  {
  }

  lemma AmountChangeOnly(p: Plan, k: nat, amount: string)
    requires k < |p.steps|
    ensures SamePlan(p, p.(steps := WithAmount(p.steps, k, amount))) && SameProgress(p.steps, WithAmount(p.steps, k, amount))
  {
  }

  /** The turn's deed is the attempt's. */
  lemma SameDeed(hash: Plan -> string, stored: Option<Stored>, p: Plan, q: Plan, s: Step, work: seq<Work>, att: Attempt,
                 st: RunState, st2: RunState, ended: Step)
    ensures DeedOf(WorkedTurn(stored, s, BoundOf(hash, p, st), work, att, BoundOf(hash, q, st2), ended))
            == DeedFor(s, st, work, att, st2).(ended := ended)
  {
  }

  lemma RefreshDone(host: Host, pr: Params, a: StepAnswers, d: Deed)
    requires d.step.kind == BridgeQuoteRefresh && RefreshBy(a, d)
    ensures DoneBy(host, pr, a, d)
  {
  }

  lemma DepositDone(host: Host, pr: Params, a: StepAnswers, d: Deed)
    requires d.step.kind == BridgeDeposit && DepositBy(a, d)
    ensures DoneBy(host, pr, a, d)
  {
  }

  method RefreshCase(host: Host, ghost hash: Plan -> string, plan: ExecutionPlan, k: nat, pr: Params, a: StepAnswers, st: RunState, ghost stored: Option<Stored>)
    returns (att: Attempt, st2: RunState, ghost turn: Turn)
    requires IsPlanHash(host, hash)
    requires Separate(plan) && k < |plan.steps| && UniqueIds(plan.Steps()) && Mirrors(plan.Steps(), st.stepState)
    requires plan.steps[k].fields.kind == BridgeQuoteRefresh
    modifies plan, plan.steps
    ensures SwitchOk(host, hash, pr, old(plan.View()), plan.View(), k, st, st2, stored, att, turn)
    ensures DoneBy(host, pr, a, DeedOf(turn))
  {
    var s := plan.steps[k].fields;
    ghost var p := plan.View();
    ghost var work;
    att, st2, work := DoRefresh(host, hash, plan, s, a, st);
    ghost var q := plan.View();
    turn := WorkedTurn(stored, s, BoundOf(hash, p, st), work, att, BoundOf(hash, q, st2), Concluded(s, att));
    RefreshSwitch(host, hash, pr, p, q, k, st, st2, stored, att, turn);
    SameDeed(hash, stored, p, q, s, work, att, st, st2, Concluded(s, att));
    RefreshDone(host, pr, a, DeedOf(turn));
  }

  lemma RefreshSwitch(host: Host, hash: Plan -> string, pr: Params, p: Plan, q: Plan, k: nat, st: RunState, st2: RunState,
                      stored: Option<Stored>, att: Attempt, turn: Turn)
    requires k < |p.steps| && Mirrors(p.steps, st.stepState) && turn.visit.Worked?
    requires p.steps[k].kind == BridgeQuoteRefresh
    requires turn == WorkedTurn(stored, p.steps[k], BoundOf(hash, p, st), turn.visit.work, att, BoundOf(hash, q, st2), Concluded(p.steps[k], att))
    requires !att.StepFailed? && (att.Succeeded? ==> att.registryTx == None)
    requires forall n :: Did(RequestQuote(n)) in turn.visit.work ==> n == AskedAmount(p.steps[k], st.output)
    requires att.Escaped? ==> q == p && st2 == st && NoSealWork(turn.visit.work)
    requires att.Succeeded? ==>
      && SamePlan(p, q) && SameProgress(p.steps, q.steps) && OthersAlike(p.steps, q.steps)
      && Mirrors(q.steps, st2.stepState) && st2 == st.(stepState := st2.stepState)
      && RefreshOk(host, hash, p, q, AskedAmount(p.steps[k], st.output), Resealed in turn.visit.work, Unsealed in turn.visit.work)
    ensures k < |q.steps| && SwitchOk(host, hash, pr, p, q, k, st, st2, stored, att, turn)
  {
    SamePlanRefl(p);
    RefreshTurn(host, hash, pr.sourceIsSolana, turn, p, q, st);
  }

  method DepositCase(host: Host, ghost hash: Plan -> string, plan: ExecutionPlan, k: nat, pr: Params, a: StepAnswers, st: RunState, ghost stored: Option<Stored>)
    returns (att: Attempt, st2: RunState, ghost turn: Turn)
    requires IsPlanHash(host, hash)
    requires Separate(plan) && k < |plan.steps| && UniqueIds(plan.Steps()) && Mirrors(plan.Steps(), st.stepState)
    requires plan.steps[k].fields.kind == BridgeDeposit
    modifies plan.steps
    ensures SwitchOk(host, hash, pr, old(plan.View()), plan.View(), k, st, st2, stored, att, turn)
    ensures DoneBy(host, pr, a, DeedOf(turn))
  {
    var s := plan.steps[k].fields;
    ghost var p := plan.View();
    ghost var work;
    att, st2, work := DoDeposit(plan, k, a, st);
    ghost var q := plan.View();
    turn := WorkedTurn(stored, s, BoundOf(hash, p, st), work, att, BoundOf(hash, q, st2), Concluded(q.steps[k], att));
    DepositSwitch(host, hash, pr, p, q, k, st, st2, stored, att, turn);
    SameDeed(hash, stored, p, q, s, work, att, st, st2, Concluded(q.steps[k], att));
    DepositDone(host, pr, a, DeedOf(turn));
  }

  lemma DepositSwitch(host: Host, hash: Plan -> string, pr: Params, p: Plan, q: Plan, k: nat, st: RunState, st2: RunState,
                      stored: Option<Stored>, att: Attempt, turn: Turn)
    requires IsPlanHash(host, hash)
    requires k < |p.steps| && Mirrors(p.steps, st.stepState) && turn.visit.Worked? && p.steps[k].kind == BridgeDeposit
    requires q == DepositPlan(p, k, st.output) && st2 == st.(txHash := st2.txHash)
    requires turn == WorkedTurn(stored, p.steps[k], BoundOf(hash, p, st), turn.visit.work, att, BoundOf(hash, q, st2), Concluded(q.steps[k], att))
    requires turn.visit.work == DepositWork(p.steps[k], st.output, !att.Escaped?)
    requires att.Succeeded? ==> Truthy(att.registryTx) && st2.txHash == att.registryTx.value
    ensures SwitchOk(host, hash, pr, p, q, k, st, st2, stored, att, turn)
  {
    SamePlanRefl(p);
    if Mismatched(p.steps[k], st.output) { AmountChangeOnly(p, k, Decimal(st.output.value)); }
    DepositTurn(host, hash, pr.sourceIsSolana, turn, p, q, st, k, !att.Escaped?);
  }

  method QuietCase(host: Host, ghost hash: Plan -> string, plan: ExecutionPlan, k: nat, pr: Params, a: StepAnswers, st: RunState, ghost stored: Option<Stored>)
    returns (att: Attempt, st2: RunState, ghost turn: Turn)
    requires IsPlanHash(host, hash)
    requires k < |plan.steps| && Mirrors(plan.Steps(), st.stepState)
    requires plan.steps[k].fields.kind != BridgeQuoteRefresh && plan.steps[k].fields.kind != BridgeDeposit
    ensures SwitchOk(host, hash, pr, plan.View(), plan.View(), k, st, st2, stored, att, turn)
    ensures DoneBy(host, pr, a, DeedOf(turn))
  {
    var s := plan.steps[k].fields;
    ghost var p, work := plan.View(), [];
    att, st2, work := QuietSwitch(host, s, pr, a, st);
    turn := WorkedTurn(stored, s, BoundOf(hash, p, st), work, att, BoundOf(hash, p, st2), Concluded(s, att));
    SamePlanRefl(p);
    QuietTurn(host, pr.sourceIsSolana, turn);
    SameDeed(hash, stored, p, p, s, work, att, st, st2, Concluded(s, att));
  }

  /** The two cases that write hashed fields. */
  method WritingCase(host: Host, ghost hash: Plan -> string, plan: ExecutionPlan, k: nat, pr: Params, a: StepAnswers, st: RunState, ghost stored: Option<Stored>)
    returns (att: Attempt, st2: RunState, ghost turn: Turn)
    requires IsPlanHash(host, hash)
    requires Separate(plan) && k < |plan.steps| && UniqueIds(plan.Steps()) && Mirrors(plan.Steps(), st.stepState)
    requires plan.steps[k].fields.kind == BridgeQuoteRefresh || plan.steps[k].fields.kind == BridgeDeposit
    modifies plan, plan.steps
    ensures SwitchOk(host, hash, pr, old(plan.View()), plan.View(), k, st, st2, stored, att, turn)
    ensures DoneBy(host, pr, a, DeedOf(turn))
  {
    if plan.steps[k].fields.kind == BridgeQuoteRefresh {
      att, st2, turn := RefreshCase(host, hash, plan, k, pr, a, st, stored);
    } else {
      att, st2, turn := DepositCase(host, hash, plan, k, pr, a, st, stored);
    }
  }

  /** The switch: runs the step's case, leaving its status to the caller. */
  method Switch(host: Host, ghost hash: Plan -> string, plan: ExecutionPlan, k: nat, pr: Params, a: StepAnswers, st: RunState, ghost stored: Option<Stored>)
    returns (att: Attempt, st2: RunState, ghost turn: Turn)
    requires IsPlanHash(host, hash)
    requires Separate(plan) && k < |plan.steps| && UniqueIds(plan.Steps()) && Mirrors(plan.Steps(), st.stepState)
    modifies plan, plan.steps
    ensures SwitchOk(host, hash, pr, old(plan.View()), plan.View(), k, st, st2, stored, att, turn)
    ensures DoneBy(host, pr, a, DeedOf(turn))
  {
    var kind := plan.steps[k].fields.kind;
    if kind == BridgeQuoteRefresh || kind == BridgeDeposit {
      att, st2, turn := WritingCase(host, hash, plan, k, pr, a, st, stored);
    } else {
      ghost var p := plan.View();
      att, st2, turn := QuietCase(host, hash, plan, k, pr, a, st, stored);
      assert plan.View() == p;
    }
  }

  // ----- One iteration of the loop -----

  /** Writes a step's status, hash and error, and its entry in the step map. */
  method Progress(host: Host, ghost hash: Plan -> string, plan: ExecutionPlan, k: nat, s: Step, st: RunState) returns (st2: RunState)
    requires IsPlanHash(host, hash)
    requires Separate(plan) && k < |plan.steps| && UniqueIds(plan.Steps()) && Mirrors(plan.Steps(), st.stepState)
    requires PlanSeal.SameButProgress(plan.steps[k].fields, s)
    modifies plan.steps[k]
    ensures plan.View() == old(plan.View()).(steps := old(plan.Steps())[k := s])
    ensures Mirrors(plan.Steps(), st2.stepState)
    ensures st2 == st.(stepState := st.stepState[s.id := s.status])
    ensures BoundOf(hash, plan.View(), st2) == BoundOf(hash, old(plan.View()), st)
  {
    ProgressWrite(host, hash, plan.View(), k, s);
    MirrorWrite(plan.Steps(), st.stepState, k, s);
    SetStep(plan, k, s);
    st2 := st.(stepState := st.stepState[s.id := s.status]);
  }

  lemma ConcludedTurn(p: Plan, m: Plan, k: nat, s: Step, st2: RunState, t: Turn)
    requires k < |p.steps| && SamePlan(p, m) && SameProgress(p.steps, m.steps)
    requires PlanSeal.SameButProgress(m.steps[k], s) && t.step == p.steps[k] && t.ended == s
    requires Completed(t.visit) ==> s.status == Success
    requires Mirrors(m.steps[k := s], st2.stepState)
    ensures PlanTurn(p, m.(steps := m.steps[k := s]), k, st2, t)
  {
  }

  /** An iteration about step k, from plan p and locals st to plan q and locals st2. */
  ghost predicate Iterated(host: Host, hash: Plan -> string, solana: bool, p: Plan, q: Plan, k: nat, st: RunState, st2: RunState, turn: Turn) {
    && PlanTurn(p, q, k, st2, turn)
    && turn.before == BoundOf(hash, p, st) && turn.after == BoundOf(hash, q, st2)
    && TurnOk(host, solana, turn)
  }

  lemma SkippedTurn(host: Host, solana: bool, t: Turn)
    requires t.visit.Skip? && t.released && t.proceeds
    requires t.after == t.before.(txHash := NextTxHash(t.step.kind, t.before.txHash, t.visit.hash),
                                  destTxHash := NextDestHash(t.step.kind, t.before.destTxHash, t.visit.hash))
    ensures TurnOk(host, solana, t)
  {
  }

  lemma IdleOk(host: Host, solana: bool, t: Turn)
    requires !t.visit.Worked? && !t.visit.Skip? && !t.proceeds && t.after == t.before
    ensures TurnOk(host, solana, t)
  {
  }

  lemma IdleTurn(host: Host, solana: bool, p: Plan, k: nat, st: RunState, t: Turn)
    requires k < |p.steps| && t.step == p.steps[k] && Mirrors(p.steps, st.stepState)
    requires !t.visit.Worked? && !t.visit.Skip? && !t.proceeds && t.after == t.before && t.ended == t.step
    ensures TurnOk(host, solana, t) && PlanTurn(p, p, k, st, t)
  {
  }

  /** A turn whose lease could not be given back, or whose end the state machine refused, throws, and
      is otherwise the turn it was. */
  lemma ReleaseTurn(host: Host, solana: bool, rule: Rule, a: StepAnswers, p: Plan, q: Plan, k: nat, st2: RunState, t: Turn, entry: Option<Stored>, u: Turn)
    requires a.lease == Returned(true)
    requires TurnOk(host, solana, t) && PlanTurn(p, q, k, st2, t) && VisitedBy(rule, a, entry, t)
    requires t.proceeds == Completed(t.visit)
    requires u == t.(released := a.released, proceeds := t.proceeds && a.released && a.ends)
    ensures TurnOk(host, solana, u) && PlanTurn(p, q, k, st2, u) && AnsweredBy(rule, a, entry, u)
  {
    SameVisit(rule, a, entry, t, u);
  }

  lemma SameVisit(rule: Rule, a: StepAnswers, entry: Option<Stored>, t: Turn, u: Turn)
    requires VisitedBy(rule, a, entry, t) && u == t.(released := u.released, proceeds := u.proceeds)
    ensures VisitedBy(rule, a, entry, u)
  {
    if t.visit.Worked? { assert DeedOf(u) == DeedOf(t); }
  }

  /** A turn in which nothing was executed adds no call, and one without a lease no event. */
  lemma NothingTraced(trace: seq<LeaseEvent>, t: Turn)
    ensures !t.visit.Worked? ==> trace == trace + WorkEvents(t.step.id, WorkOf(t.visit))
    ensures !TookLease(t.visit) ==> trace == trace + Events(t)
  {
  }

  lemma SkipTest(record: Option<Stored>, reg: map<string, Stored>, key: string, s: Step)
    ensures StoredSuccess(record) || Recorded(reg, key) || s.status == Success <==> KnownFinished(record, Entry(reg, key), s)
  {
  }

  lemma FinishedVisit(rule: Rule, a: StepAnswers, record: Option<Stored>, entry: Option<Stored>, t: Turn)
    requires a.record == Returned(record) && KnownFinished(record, entry, t.step) && SkippedBy(record, entry, t)
    ensures VisitedBy(rule, a, entry, t)
  {
  }

  lemma UnfinishedVisit(rule: Rule, a: StepAnswers, record: Option<Stored>, entry: Option<Stored>, t: Turn)
    requires a.record == Returned(record) && !KnownFinished(record, entry, t.step)
    requires match a.uncertain
             case Thrown => t.visit == TransactionsUnread(record) && Unmoved(t)
             case Returned(true) => t.visit == UncertainBroadcast(record) && Unmoved(t)
             case Returned(false) => t.visit.Worked? && t.visit.stored == record && rule(a, DeedOf(t))
    ensures VisitedBy(rule, a, entry, t)
  {
  }

  lemma EventsUnderLease(before: seq<LeaseEvent>, t: Turn)
    requires TookLease(t.visit)
    ensures before + [Taken(t.step.id)] + WorkEvents(t.step.id, WorkOf(t.visit)) + (if t.released then [Released(t.step.id)] else [])
            == before + Events(t)
  {
  }

  /** The execute branch: the switch, then the step's new status. */
  method ExecuteStep(host: Host, ghost hash: Plan -> string, ghost rule: Rule, plan: ExecutionPlan, k: nat, pr: Params, a: StepAnswers, st: RunState, ghost stored: Option<Stored>)
    returns (att: Attempt, st2: RunState, ghost turn: Turn)
    requires IsPlanHash(host, hash) && IsRule(host, pr, rule)
    requires Separate(plan) && k < |plan.steps| && UniqueIds(plan.Steps()) && Mirrors(plan.Steps(), st.stepState)
    modifies plan, plan.steps
    ensures Iterated(host, hash, pr.sourceIsSolana, old(plan.View()), plan.View(), k, st, st2, turn)
    ensures turn.visit.Worked? && rule(a, DeedOf(turn))
    ensures turn.visit == Worked(stored, WorkOf(turn.visit), ResultOf(att)) && turn.proceeds == att.Succeeded?
    ensures plan.steps[k].fields.status ==
      match att case Succeeded(_, _) => Success case StepFailed(_) => Failed case Escaped => old(plan.steps[k].fields.status)
    ensures att.Succeeded? ==> plan.steps[k].fields.txHash == att.stepTx
  {
    ghost var p := plan.View();
    att, st2, turn := Switch(host, hash, plan, k, pr, a, st, stored);
    assert RuleAgrees(host, pr, rule, a, DeedOf(turn));
    var s := Concluded(plan.steps[k].fields, att);
    ghost var m := plan.View();
    st2 := Progress(host, hash, plan, k, s, st2);
    ConcludedTurn(p, m, k, s, st2, turn);
  }

  /** The dependency guard at the head of an iteration. */
  method CheckDependencies(deps: seq<string>, m: map<string, StepStatus>) returns (done: bool)
    ensures done <==> DependenciesDone(deps, m)
  {
    for i := 0 to |deps|
      invariant DependenciesDone(deps[..i], m)
    {
      if deps[i] !in m || m[deps[i]] != Success { return false; }
    }
    assert deps[..|deps|] == deps;
    done := true;
  }

  /** stepStateMap before the loop. */
  method StepMap(steps: seq<Step>) returns (m: map<string, StepStatus>)
    requires UniqueIds(steps)
    ensures Mirrors(steps, m)
  {
    m := map[];
    for i := 0 to |steps|
      invariant Mirrors(steps[..i], m)
    {
      m := m[steps[i].id := steps[i].status];
    }
    assert steps[..|steps|] == steps;
  }

  lemma DistinctObjects(plan: ExecutionPlan)
    requires PlanGraph.Valid(Graph(plan.Steps()))
    ensures Separate(plan) && UniqueIds(plan.Steps())
  {
    var steps := plan.Steps();
    forall i, j | 0 <= i < j < |steps| ensures steps[i].id != steps[j].id {
      assert Graph(steps)[i].id != Graph(steps)[j].id;
    }
    forall i, j | 0 <= i < j < |steps| ensures plan.steps[i] != plan.steps[j] {
      assert steps[i].id != steps[j].id;
    }
  }

  /** What a run starts from. */
  ghost function FirstBound(host: Host, p: Plan, pr: Params): Bound {
    Bound(pr.actualOutput, SealedNow(PlanHash(host), p), DepositOf(p.steps), "", None)
  }

  /** One call of executeTrade: the plan and the registry it found, the turns it made, what it
      answered, and the plan, step map and registry it left. */
  datatype Trade = Trade(
    params: Params, plan: Plan, registry: map<string, Stored>,
    turns: seq<Turn>, result: TradeResult,
    endPlan: Plan, endSteps: map<string, StepStatus>, endRegistry: map<string, Stored>)

  /** The turns form a run on the plan, starting without hashes, and the registry ends as they say. */
  ghost predicate TurnsOk(host: Host, t: Trade) {
    && RunOk(host, t.params.sourceIsSolana, t.plan, t.turns) && SamePlan(t.plan, t.endPlan)
    && (t.turns != [] ==> PlanGraph.Valid(Graph(t.plan.steps)))
    && (t.turns != [] ==> t.turns[0].before.txHash == "" && t.turns[0].before.destTxHash == None)
    && t.endRegistry == RegistryThrough(t.registry, t.plan.header.planId, t.turns)
    && SkipRules(t.registry, t.plan.header.planId, t.turns)
  }

  /** A normal return means every step of the order succeeded; a throw, that the last turn did not
      proceed or the loop was not reached. */
  ghost predicate ResultOk(t: Trade) {
    && t.result != Threw(Stopped(DependencyBlocked))
    && (t.result.Finished? ==>
          && 0 < |t.turns| == |t.plan.steps| && DoneSoFar(t.endPlan.steps, t.turns)
          && AllSuccess(t.endPlan, t.endSteps, t.endRegistry)
          && t.result.receipt == ReceiptOf(t.plan, t.turns[|t.turns|-1].after))
    && (t.result.Threw? && t.turns != [] ==> !t.turns[|t.turns|-1].proceeds)
  }

  /** What executeTrade promises of its turns, its answer and the registry. */
  ghost predicate TradeOk(host: Host, t: Trade) { TurnsOk(host, t) && ResultOk(t) }

  lemma RefusedTrade(host: Host, t: Trade)
    requires t.turns == [] && t.result.Threw? && !t.result.error.Stopped?
    requires t.endPlan == t.plan && t.endRegistry == t.registry
    ensures TradeOk(host, t)
  {
    SamePlanRefl(t.plan);
  }

  /** The loop's outcome is the trade's. */
  lemma RunTrade(host: Host, t: Trade, first: Bound, last: Bound)
    requires PlanGraph.Valid(Graph(t.plan.steps)) && t.plan.steps != []
    requires LoopOk(host, t.params.sourceIsSolana, t.plan, t.endPlan, first, last, t.turns)
    requires first.txHash == "" && first.destTxHash == None
    requires Mirrors(t.endPlan.steps, t.endSteps)
    requires t.endRegistry == RegistryThrough(t.registry, t.plan.header.planId, t.turns)
    requires SkipRules(t.registry, t.plan.header.planId, t.turns)
    requires t.result != Threw(Stopped(DependencyBlocked))
    requires t.result.Finished? ==> |t.turns| == |Order(t.plan)| && DoneSoFar(t.endPlan.steps, t.turns)
    requires t.result.Finished? ==> t.result.receipt == ReceiptOf(t.plan, last)
    requires t.result.Threw? ==> t.turns != [] && !t.turns[|t.turns|-1].proceeds
    ensures TradeOk(host, t)
    ensures t.turns != [] && t.turns[0].before == first
  {
    KahnOrder.OrderIsPermutation(Graph(t.plan.steps));
    if t.result.Finished? {
      CompleteRun(host, t.params.sourceIsSolana, t.plan, t.endPlan, t.endSteps, t.registry, t.turns);
    }
  }

  /** Every turn goes as the world answers about its step. */
  ghost predicate AllAnswered(rule: Rule, world: World, reg0: map<string, Stored>, planId: string, turns: seq<Turn>) {
    forall i :: 0 <= i < |turns| ==>
      AnsweredBy(rule, world(turns[i].step.id), Entry(reg0, Key(planId, turns[i].step.id)), turns[i])
  }

  lemma AnsweredSkips(rule: Rule, a: StepAnswers, reg: map<string, Stored>, key: string, t: Turn)
    requires AnsweredBy(rule, a, Entry(reg, key), t)
    ensures SkipRule(reg, key, t)
  {
  }

  lemma ExtendAnswers(rule: Rule, world: World, reg0: map<string, Stored>, reg: map<string, Stored>, planId: string,
                      turns: seq<Turn>, t: Turn)
    requires reg == RegistryThrough(reg0, planId, turns) && AllAnswered(rule, world, reg0, planId, turns)
    requires forall i :: 0 <= i < |turns| ==> turns[i].step.id != t.step.id
    requires AnsweredBy(rule, world(t.step.id), Entry(reg, Key(planId, t.step.id)), t)
    ensures AllAnswered(rule, world, reg0, planId, turns + [t])
  {
    var key := Key(planId, t.step.id);
    forall i | 0 <= i < |turns| ensures !Completes(planId, turns, i, key) { KeysDiffer(planId, turns[i].step.id, t.step.id); }
    EntryKept(reg0, planId, turns, key);
    assert Entry(reg, key) == Entry(reg0, key);
    forall i | 0 <= i < |turns + [t]|
      ensures AnsweredBy(rule, world((turns + [t])[i].step.id), Entry(reg0, Key(planId, (turns + [t])[i].step.id)), (turns + [t])[i])
    {
      assert (turns + [t])[i] == if i < |turns| then turns[i] else t;
    }
  }

  /** A trade's turns, and the error it stops with, are what the world's answers make them. */
  ghost predicate FollowsWorld(host: Host, world: World, t: Trade) {
    && AllAnswered(DoneRule(host, t.params), world, t.registry, t.plan.header.planId, t.turns)
    && (t.turns != [] && t.result.Threw? ==>
          t.result.error.Stopped? && StoppedBy(world(t.turns[|t.turns|-1].step.id), t.turns[|t.turns|-1], t.result.error.stop))
  }

  class ExecutionCoordinator {
    // executedStepRegistry
    var registry: map<string, Stored>
    ghost var trace: seq<LeaseEvent>

    constructor ()
      ensures registry == map[] && trace == []
    {
      registry, trace := map[], [];
    }

    /** The skip branch. */
    method SkipStep(host: Host, ghost hash: Plan -> string, ghost rule: Rule, plan: ExecutionPlan, k: nat, ghost pr: Params, ghost a: StepAnswers, st: RunState,
                    stored: Option<Stored>, ghost entry: Option<Stored>)
      returns (st2: RunState, ghost turn: Turn)
      requires IsPlanHash(host, hash)
      requires k < |plan.steps| && entry == Entry(registry, Key(plan.header.planId, plan.steps[k].fields.id))
      requires a.record == Returned(stored) && KnownFinished(stored, entry, plan.steps[k].fields)
      requires Separate(plan) && k < |plan.steps| && UniqueIds(plan.Steps()) && Mirrors(plan.Steps(), st.stepState)
      modifies this`registry, plan.steps[k]
      ensures Iterated(host, hash, pr.sourceIsSolana, old(plan.View()), plan.View(), k, st, st2, turn)
      ensures turn.proceeds
      ensures VisitedBy(rule, a, entry, turn)
      ensures registry == RegistryAfter(old(registry), Key(plan.header.planId, turn.step.id), turn.visit)
    {
      ghost var p := plan.View();
      var s := plan.steps[k].fields;
      var key := Key(plan.header.planId, s.id);
      var found := ShownHash(stored, registry, key, s);
      ghost var before := BoundOf(hash, p, st);
      st2 := Progress(host, hash, plan, k, s.(status := Success, txHash := found), st);
      st2 := st2.(txHash := NextTxHash(s.kind, st.txHash, found), destTxHash := NextDestHash(s.kind, st.destTxHash, found));
      registry := registry[key := Stored(Success, found)];
      turn := Turn(s, before, Skip(stored, found), true, true, BoundOf(hash, plan.View(), st2), plan.Steps()[k]);
      SkippedTurn(host, pr.sourceIsSolana, turn);
      ConcludedTurn(p, p, k, s.(status := Success, txHash := found), st2, turn);
      FinishedVisit(rule, a, stored, entry, turn);
    }

    /** The execute branch, with the registry entry of a success. */
    method ExecuteAndRecord(host: Host, ghost hash: Plan -> string, ghost rule: Rule, plan: ExecutionPlan, k: nat, pr: Params, a: StepAnswers, st: RunState, ghost stored: Option<Stored>)
      returns (st2: RunState, error: Option<Stop>, ghost turn: Turn)
      requires IsPlanHash(host, hash) && IsRule(host, pr, rule)
      requires Separate(plan) && k < |plan.steps| && UniqueIds(plan.Steps()) && Mirrors(plan.Steps(), st.stepState)
      modifies this, plan, plan.steps
      ensures Iterated(host, hash, pr.sourceIsSolana, old(plan.View()), plan.View(), k, st, st2, turn)
      ensures turn.proceeds == error.None? == Completed(turn.visit)
      ensures registry == RegistryAfter(old(registry), Key(old(plan.header.planId), turn.step.id), turn.visit)
      ensures turn.visit.Worked? && turn.visit.stored == stored && rule(a, DeedOf(turn))
      ensures error.None? || error == Some(StepError)
      ensures trace == old(trace) + WorkEvents(turn.step.id, WorkOf(turn.visit))
    {
      var key := Key(plan.header.planId, plan.steps[k].fields.id);
      var att;
      att, st2, turn := ExecuteStep(host, hash, rule, plan, k, pr, a, st, stored);
      ghost var q := plan.View();
      if att.Succeeded? { registry := registry[key := Stored(Success, att.registryTx)]; }
      trace := trace + WorkEvents(turn.step.id, turn.visit.work);
      assert plan.View() == q;
      error := if att.Succeeded? then None else Some(StepError);
    }

    /** Past the skip test: refuse a step with an uncertain broadcast, execute any other. */
    method RunUnfinished(host: Host, ghost hash: Plan -> string, ghost rule: Rule, plan: ExecutionPlan, k: nat, pr: Params, a: StepAnswers, st: RunState, stored: Option<Stored>,
                         ghost entry: Option<Stored>)
      returns (st2: RunState, error: Option<Stop>, ghost turn: Turn)
      requires IsPlanHash(host, hash) && IsRule(host, pr, rule)
      requires k < |plan.steps| && a.record == Returned(stored) && !KnownFinished(stored, entry, plan.steps[k].fields)
      requires Separate(plan) && k < |plan.steps| && UniqueIds(plan.Steps()) && Mirrors(plan.Steps(), st.stepState)
      modifies this, plan, plan.steps
      ensures Iterated(host, hash, pr.sourceIsSolana, old(plan.View()), plan.View(), k, st, st2, turn)
      ensures turn.proceeds == error.None? == Completed(turn.visit)
      ensures registry == RegistryAfter(old(registry), Key(old(plan.header.planId), turn.step.id), turn.visit)
      ensures VisitedBy(rule, a, entry, turn)
      ensures error.Some? ==> error.value == if turn.visit.UncertainBroadcast? then RecoveryRequired else StepError
      ensures trace == old(trace) + WorkEvents(turn.step.id, WorkOf(turn.visit))
    {
      if a.uncertain.Thrown? || a.uncertain.value {
        ghost var p := plan.View();
        ghost var before := BoundOf(hash, p, st);
        turn := Turn(p.steps[k], before, if a.uncertain.Thrown? then TransactionsUnread(stored) else UncertainBroadcast(stored),
                     true, false, before, p.steps[k]);
        IdleTurn(host, pr.sourceIsSolana, p, k, st, turn);
        NothingTraced(trace, turn);
        UnfinishedVisit(rule, a, stored, entry, turn);
        return st, Some(if a.uncertain.Thrown? then StepError else RecoveryRequired), turn;
      }
      st2, error, turn := ExecuteAndRecord(host, hash, rule, plan, k, pr, a, st, stored);
      UnfinishedVisit(rule, a, stored, entry, turn);
    }

    /** The try block of an iteration, run while the step's lease is held. */
    method UnderLease(host: Host, ghost hash: Plan -> string, ghost rule: Rule, plan: ExecutionPlan, k: nat, pr: Params, a: StepAnswers, st: RunState)
      returns (st2: RunState, error: Option<Stop>, ghost turn: Turn)
      requires IsPlanHash(host, hash) && IsRule(host, pr, rule)
      requires Separate(plan) && k < |plan.steps| && UniqueIds(plan.Steps()) && Mirrors(plan.Steps(), st.stepState)
      modifies this, plan, plan.steps
      ensures Iterated(host, hash, pr.sourceIsSolana, old(plan.View()), plan.View(), k, st, st2, turn)
      ensures turn.proceeds == error.None? == Completed(turn.visit)
      ensures registry == RegistryAfter(old(registry), Key(old(plan.header.planId), turn.step.id), turn.visit)
      ensures VisitedBy(rule, a, Entry(old(registry), Key(old(plan.header.planId), turn.step.id)), turn)
      ensures error.Some? ==> error.value == if turn.visit.UncertainBroadcast? then RecoveryRequired else StepError
      ensures trace == old(trace) + WorkEvents(turn.step.id, WorkOf(turn.visit))
    {
      if a.record.Thrown? {
        ghost var p := plan.View();
        ghost var before := BoundOf(hash, p, st);
        turn := Turn(p.steps[k], before, ReadFailed, true, false, before, p.steps[k]);
        IdleTurn(host, pr.sourceIsSolana, p, k, st, turn);
        NothingTraced(trace, turn);
        return st, Some(StepError), turn;
      }
      st2, error, turn := SkipOrRun(host, hash, rule, plan, k, pr, a, st, a.record.value,
                                    Entry(registry, Key(plan.header.planId, plan.steps[k].fields.id)));
    }

    /** The skip test on what was read. */
    method SkipOrRun(host: Host, ghost hash: Plan -> string, ghost rule: Rule, plan: ExecutionPlan, k: nat, pr: Params, a: StepAnswers, st: RunState, stored: Option<Stored>,
                     ghost entry: Option<Stored>)
      returns (st2: RunState, error: Option<Stop>, ghost turn: Turn)
      requires IsPlanHash(host, hash) && IsRule(host, pr, rule)
      requires a.record == Returned(stored) && k < |plan.steps| && entry == Entry(registry, Key(plan.header.planId, plan.steps[k].fields.id))
      requires Separate(plan) && k < |plan.steps| && UniqueIds(plan.Steps()) && Mirrors(plan.Steps(), st.stepState)
      modifies this, plan, plan.steps
      ensures Iterated(host, hash, pr.sourceIsSolana, old(plan.View()), plan.View(), k, st, st2, turn)
      ensures turn.proceeds == error.None? == Completed(turn.visit)
      ensures registry == RegistryAfter(old(registry), Key(old(plan.header.planId), turn.step.id), turn.visit)
      ensures VisitedBy(rule, a, entry, turn)
      ensures error.Some? ==> error.value == if turn.visit.UncertainBroadcast? then RecoveryRequired else StepError
      ensures trace == old(trace) + WorkEvents(turn.step.id, WorkOf(turn.visit))
    {
      var s := plan.steps[k].fields;
      SkipTest(stored, registry, Key(plan.header.planId, s.id), s);
      if StoredSuccess(stored) || Recorded(registry, Key(plan.header.planId, s.id)) || s.status == Success {
        st2, turn := SkipStep(host, hash, rule, plan, k, pr, a, st, stored, entry);
        error := None;
        NothingTraced(trace, turn);
      } else {
        st2, error, turn := RunUnfinished(host, hash, rule, plan, k, pr, a, st, stored, entry);
      }
    }

    /** A step between taking its lease and giving it back; releaseLease may throw. The finally block
        also writes the step's record, whose failure is ignored. */
    method Bracket(host: Host, ghost hash: Plan -> string, ghost rule: Rule, plan: ExecutionPlan, k: nat, pr: Params, a: StepAnswers, st: RunState)
      returns (st2: RunState, error: Option<Stop>, ghost turn: Turn)
      requires IsPlanHash(host, hash) && IsRule(host, pr, rule)
      requires Separate(plan) && k < |plan.steps| && UniqueIds(plan.Steps()) && Mirrors(plan.Steps(), st.stepState)
      modifies this, plan, plan.steps
      ensures Iterated(host, hash, pr.sourceIsSolana, old(plan.View()), plan.View(), k, st, st2, turn)
      ensures turn.proceeds == error.None? == Completed(turn.visit)
      ensures registry == RegistryAfter(old(registry), Key(old(plan.header.planId), turn.step.id), turn.visit)
      ensures VisitedBy(rule, a, Entry(old(registry), Key(old(plan.header.planId), turn.step.id)), turn)
      ensures error.Some? ==> error.value == if turn.visit.UncertainBroadcast? then RecoveryRequired else StepError
      ensures trace == old(trace) + [Taken(turn.step.id)] + WorkEvents(turn.step.id, WorkOf(turn.visit))
                     + (if a.released then [Released(turn.step.id)] else [])
    {
      ghost var p, id := plan.View(), plan.steps[k].fields.id;
      trace := trace + [Taken(id)];
      assert plan.View() == p;
      st2, error, turn := UnderLease(host, hash, rule, plan, k, pr, a, st);
      ghost var q := plan.View();
      trace := trace + (if a.released then [Released(id)] else []);
      assert plan.View() == q;
    }

    /** The try and its finally: a release that throws ends the run, with the lease still held. So does
        the state machine when it refuses the status a finished step ends with, the lease given back. */
    method HoldLease(host: Host, ghost hash: Plan -> string, ghost rule: Rule, plan: ExecutionPlan, k: nat, pr: Params, a: StepAnswers, st: RunState)
      returns (st2: RunState, error: Option<Stop>, ghost turn: Turn)
      requires IsPlanHash(host, hash) && IsRule(host, pr, rule)
      requires a.lease == Returned(true)
      requires Separate(plan) && k < |plan.steps| && UniqueIds(plan.Steps()) && Mirrors(plan.Steps(), st.stepState)
      modifies this, plan, plan.steps
      ensures Iterated(host, hash, pr.sourceIsSolana, old(plan.View()), plan.View(), k, st, st2, turn)
      ensures turn.proceeds == error.None?
      ensures registry == RegistryAfter(old(registry), Key(old(plan.header.planId), turn.step.id), turn.visit)
      ensures AnsweredBy(rule, a, Entry(old(registry), Key(old(plan.header.planId), turn.step.id)), turn)
      ensures error.Some? ==> StoppedBy(a, turn, error.value)
      ensures trace == old(trace) + Events(turn)
    {
      ghost var p, entry := plan.View(), Entry(registry, Key(plan.header.planId, plan.steps[k].fields.id));
      ghost var t;
      st2, error, t := Bracket(host, hash, rule, plan, k, pr, a, st);
      if !a.released || (error.None? && !a.ends) { error := Some(StepError); }
      turn := t.(released := a.released, proceeds := t.proceeds && a.released && a.ends);
      ReleaseTurn(host, pr.sourceIsSolana, rule, a, p, plan.View(), k, st2, t, entry, turn);
      EventsUnderLease(old(trace), turn);
    }

    /** A step blocked by a dependency is marked FAILED. */
    method BlockStep(host: Host, ghost hash: Plan -> string, plan: ExecutionPlan, k: nat, st: RunState, ghost solana: bool)
      returns (st2: RunState, ghost turn: Turn)
      requires IsPlanHash(host, hash)
      requires Separate(plan) && k < |plan.steps| && UniqueIds(plan.Steps()) && Mirrors(plan.Steps(), st.stepState)
      modifies plan.steps[k]
      ensures PlanTurn(old(plan.View()), plan.View(), k, st2, turn)
      ensures turn.before == BoundOf(hash, old(plan.View()), st) && turn.after == BoundOf(hash, plan.View(), st2)
      ensures TurnOk(host, solana, turn)
      ensures !turn.proceeds && turn.visit == Blocked
      ensures plan.steps[k].fields == old(plan.steps[k].fields).(status := Failed)
      ensures turn.ended == turn.step.(status := Failed)
    {
      ghost var p := plan.View();
      ghost var before := BoundOf(hash, p, st);
      var s := plan.steps[k].fields.(status := Failed);
      turn := Turn(p.steps[k], before, Blocked, true, false, before, s);
      IdleOk(host, solana, turn);
      st2 := Progress(host, hash, plan, k, s, st);
      ConcludedTurn(p, p, k, s, st2, turn);
    }

    /** One iteration of the step loop. */
    method RunStep(host: Host, ghost hash: Plan -> string, ghost rule: Rule, plan: ExecutionPlan, k: nat, pr: Params, a: StepAnswers, st: RunState)
      returns (st2: RunState, error: Option<Stop>, ghost turn: Turn)
      requires IsPlanHash(host, hash) && IsRule(host, pr, rule)
      requires Separate(plan) && k < |plan.steps| && UniqueIds(plan.Steps()) && Mirrors(plan.Steps(), st.stepState)
      modifies this, plan, plan.steps
      ensures PlanTurn(old(plan.View()), plan.View(), k, st2, turn)
      ensures turn.before == BoundOf(hash, old(plan.View()), st) && turn.after == BoundOf(hash, plan.View(), st2)
      ensures TurnOk(host, pr.sourceIsSolana, turn)
      ensures turn.proceeds == error.None?
      ensures registry == RegistryAfter(old(registry), Key(old(plan.header.planId), turn.step.id), turn.visit)
      ensures !turn.visit.Blocked? ==> AnsweredBy(rule, a, Entry(old(registry), Key(old(plan.header.planId), turn.step.id)), turn)
      ensures error.Some? && !turn.visit.Blocked? ==> StoppedBy(a, turn, error.value)
      ensures turn.visit.Blocked? <==> !DependenciesDone(turn.step.dependencies, st.stepState)
      ensures turn.visit.Blocked? <==> error == Some(DependencyBlocked)
      ensures trace == old(trace) + Events(turn)
    {
      var done := CheckDependencies(plan.steps[k].fields.dependencies, st.stepState);
      if !done {
        st2, turn := BlockStep(host, hash, plan, k, st, pr.sourceIsSolana);
        NothingTraced(trace, turn);
        return st2, Some(DependencyBlocked), turn;
      }
      st2, error, turn := TryLease(host, hash, rule, plan, k, pr, a, st);
    }

    /** Past the dependency guard: the lease, and the step under it. */
    method TryLease(host: Host, ghost hash: Plan -> string, ghost rule: Rule, plan: ExecutionPlan, k: nat, pr: Params, a: StepAnswers, st: RunState)
      returns (st2: RunState, error: Option<Stop>, ghost turn: Turn)
      requires IsPlanHash(host, hash) && IsRule(host, pr, rule)
      requires Separate(plan) && k < |plan.steps| && UniqueIds(plan.Steps()) && Mirrors(plan.Steps(), st.stepState)
      modifies this, plan, plan.steps
      ensures PlanTurn(old(plan.View()), plan.View(), k, st2, turn)
      ensures turn.before == BoundOf(hash, old(plan.View()), st) && turn.after == BoundOf(hash, plan.View(), st2)
      ensures TurnOk(host, pr.sourceIsSolana, turn)
      ensures turn.proceeds == error.None?
      ensures registry == RegistryAfter(old(registry), Key(old(plan.header.planId), turn.step.id), turn.visit)
      ensures AnsweredBy(rule, a, Entry(old(registry), Key(old(plan.header.planId), turn.step.id)), turn)
      ensures error.Some? ==> StoppedBy(a, turn, error.value)
      ensures trace == old(trace) + Events(turn)
    {
      if a.lease.Thrown? || !a.lease.value {
        ghost var p := plan.View();
        ghost var before := BoundOf(hash, p, st);
        turn := Turn(p.steps[k], before, LeaseRefused, true, false, before, p.steps[k]);
        IdleTurn(host, pr.sourceIsSolana, p, k, st, turn);
        NothingTraced(trace, turn);
        return st, Some(if a.lease.Thrown? then StepError else LeaseConflict), turn;
      }
      st2, error, turn := HoldLease(host, hash, rule, plan, k, pr, a, st);
    }

    /** The step loop on plan p0. */
    method RunSteps(host: Host, ghost hash: Plan -> string, ghost rule: Rule, plan: ExecutionPlan, ghost p0: Plan, ids: seq<string>, order: seq<string>,
                    pr: Params, world: World, st0: RunState, ghost first: Bound)
      returns (st: RunState, error: Option<Stop>, ghost turns: seq<Turn>)
      requires IsPlanHash(host, hash) && IsRule(host, pr, rule) && p0 == plan.View() && ids == PlanGraph.Ids(Graph(p0.steps)) && order == Order(p0)
      requires first == BoundOf(hash, p0, st0)
      requires Separate(plan) && PlanGraph.Valid(Graph(p0.steps)) && Mirrors(p0.steps, st0.stepState)
      modifies this, plan, plan.steps
      ensures LoopOk(host, pr.sourceIsSolana, p0, plan.View(), first, BoundOf(hash, plan.View(), st), turns)
      ensures Mirrors(plan.Steps(), st.stepState)
      ensures registry == RegistryThrough(old(registry), p0.header.planId, turns) && SkipRules(old(registry), p0.header.planId, turns)
      ensures AllAnswered(rule, world, old(registry), p0.header.planId, turns)
      ensures trace == old(trace) + RunLaws.Trace(turns)
      ensures error != Some(DependencyBlocked)
      ensures error.None? ==> |turns| == |order| && DoneSoFar(plan.Steps(), turns)
      ensures error.Some? ==> turns != [] && !turns[|turns|-1].proceeds
      ensures error.Some? ==> StoppedBy(world(turns[|turns|-1].step.id), turns[|turns|-1], error.value)
    {
      st, error, turns := st0, None, [];
      SamePlanRefl(p0);
      var n := 0;
      while n < |order|
        invariant n == |turns| <= |order| && error == None
        invariant LoopOk(host, pr.sourceIsSolana, p0, plan.View(), first, BoundOf(hash, plan.View(), st), turns)
        invariant Mirrors(plan.Steps(), st.stepState)
        invariant registry == RegistryThrough(old(registry), p0.header.planId, turns) && SkipRules(old(registry), p0.header.planId, turns)
        invariant AllAnswered(rule, world, old(registry), p0.header.planId, turns)
        invariant trace == old(trace) + RunLaws.Trace(turns)
        invariant DoneSoFar(plan.Steps(), turns)
      {
        st, error, turns := RunNext(host, hash, rule, plan, ids, order[n], pr, world, st, p0, turns, first, old(registry), old(trace));
        if error.Some? { return; }
        n := n + 1;
      }
    }

    /** The iteration for the next step of the order, after |turns| successful ones. */
    method RunNext(host: Host, ghost hash: Plan -> string, ghost rule: Rule, plan: ExecutionPlan, ids: seq<string>, id: string, pr: Params, world: World, st: RunState,
                   ghost p0: Plan, ghost turns: seq<Turn>, ghost first: Bound, ghost reg0: map<string, Stored>, ghost trace0: seq<LeaseEvent>)
      returns (st2: RunState, error: Option<Stop>, ghost all: seq<Turn>)
      requires IsPlanHash(host, hash) && IsRule(host, pr, rule)
      requires Separate(plan) && PlanGraph.Valid(Graph(p0.steps)) && ids == PlanGraph.Ids(Graph(p0.steps))
      requires |turns| < |Order(p0)| && id == Order(p0)[|turns|]
      requires LoopOk(host, pr.sourceIsSolana, p0, plan.View(), first, BoundOf(hash, plan.View(), st), turns)
      requires Mirrors(plan.Steps(), st.stepState) && DoneSoFar(plan.Steps(), turns)
      requires registry == RegistryThrough(reg0, p0.header.planId, turns) && SkipRules(reg0, p0.header.planId, turns)
      requires AllAnswered(rule, world, reg0, p0.header.planId, turns)
      requires trace == trace0 + RunLaws.Trace(turns)
      modifies this, plan, plan.steps
      ensures |all| == |turns| + 1
      ensures LoopOk(host, pr.sourceIsSolana, p0, plan.View(), first, BoundOf(hash, plan.View(), st2), all)
      ensures Mirrors(plan.Steps(), st2.stepState)
      ensures registry == RegistryThrough(reg0, p0.header.planId, all) && SkipRules(reg0, p0.header.planId, all)
      ensures AllAnswered(rule, world, reg0, p0.header.planId, all)
      ensures error.Some? ==> StoppedBy(world(all[|turns|].step.id), all[|turns|], error.value)
      ensures trace == trace0 + RunLaws.Trace(all)
      ensures error != Some(DependencyBlocked) && all[|turns|].proceeds == error.None?
      ensures error.None? ==> DoneSoFar(plan.Steps(), all)
    {
      ghost var p, reg := plan.View(), registry;
      OrderIndex(p0, p, |turns|);
      var k := IndexOf(ids, id);
      NextIsNew(p0, p, turns, k);
      DependenciesReady(p0, p, st.stepState, turns, k);
      ghost var t;
      st2, error, t := RunStep(host, hash, rule, plan, k, pr, world(plan.steps[k].fields.id), st);
      all := turns + [t];
      ExtendLoop(host, pr.sourceIsSolana, hash, p0, p, plan.View(), k, st, st2, turns, t, first);
      AnsweredSkips(rule, world(t.step.id), reg, Key(p0.header.planId, t.step.id), t);
      ExtendRegistry(reg0, reg, p0.header.planId, turns, t);
      ExtendAnswers(rule, world, reg0, reg, p0.header.planId, turns, t);
      RunLaws.TraceGrows(trace0, turns, t);
    }

    /** executeTrade on a plan. */
    method ExecuteTrade(host: Host, lookups: Lookups, plan: ExecutionPlan, caller: Caller, settings: Params, world: World)
      returns (r: TradeResult, ghost trade: Trade)
      modifies this, plan, plan.steps
      ensures TradeOk(host, trade) && trade.params == OnChains(lookups, trade.plan.header, settings) && trade.result == r
      ensures FollowsWorld(host, world, trade)
      ensures trade.plan == old(plan.View()) && trade.endPlan == plan.View()
      ensures trade.turns != [] <==> MayStart(host, lookups, trade.plan, caller)
      ensures trade.turns == [] ==> r.Threw? && (r.error.Invalid? || r.error.Gated?)
      ensures r.Threw? && r.error.Invalid? <==> !PlanValidator.Accepted(host, lookups, trade.plan)
      ensures trade.turns != [] ==> trade.turns[0].before == FirstBound(host, trade.plan, trade.params)
      ensures trade.registry == old(registry) && trade.endRegistry == registry
      ensures trace == old(trace) + RunLaws.Trace(trade.turns)
    {
      ghost var p0, reg0 := plan.View(), registry;
      var pr := OnChains(lookups, plan.header, settings);
      var invalid := PlanValidator.ValidatePlan(host, lookups, plan.View());
      if invalid.Some? || !PlanSeal.VerifyIntegrity(host, plan.View(), None) || !plan.header.isExecutable || !GatesOpen(host, lookups, plan.header, caller) {
        r := Threw(if invalid.Some? then Invalid(invalid.value) else Gated);
        trade := Trade(pr, p0, reg0, [], r, p0, map[], reg0);
        RefusedTrade(host, trade);
      } else {
        r, trade := RunAccepted(host, plan, pr, world);
      }
    }

    /** The rest of executeTrade, once the plan is accepted and every gate passed. */
    method RunAccepted(host: Host, plan: ExecutionPlan, pr: Params, world: World) returns (r: TradeResult, ghost trade: Trade)
      requires pr.crossChain == CrossChain(plan.View())
      requires PlanGraph.Valid(Graph(plan.Steps())) && plan.steps != []
      modifies this, plan, plan.steps
      ensures TradeOk(host, trade) && trade.params == pr && trade.result == r
      ensures FollowsWorld(host, world, trade)
      ensures trade.plan == old(plan.View()) && trade.endPlan == plan.View()
      ensures trade.turns != [] && trade.turns[0].before == FirstBound(host, trade.plan, pr)
      ensures r.Threw? ==> !r.error.Invalid?
      ensures trade.registry == old(registry) && trade.endRegistry == registry
      ensures trace == old(trace) + RunLaws.Trace(trade.turns)
    {
      ghost var p0, reg0 := plan.View(), registry;
      var st, error;
      ghost var turns;
      st, error, turns := RunOrdered(host, PlanHash(host), DoneRule(host, pr), plan, p0, pr, world, FirstBound(host, p0, pr));
      ghost var q := plan.View();
      r := if error.Some? then Threw(Stopped(error.value))
           else Finished(Receipt(st.txHash, st.destTxHash,
             if pr.crossChain && !Truthy(st.destTxHash) then BRIDGE_IN_FLIGHT else COMPLETED));
      trade := Trade(pr, p0, reg0, turns, r, q, st.stepState, registry);
      RunTrade(host, trade, FirstBound(host, p0, pr), BoundOf(PlanHash(host), q, st));
    }

    /** Orders the plan, fills the step map and runs the loop. */
    method RunOrdered(host: Host, ghost hash: Plan -> string, ghost rule: Rule, plan: ExecutionPlan, ghost p0: Plan, pr: Params, world: World, ghost first: Bound)
      returns (st: RunState, error: Option<Stop>, ghost turns: seq<Turn>)
      requires IsPlanHash(host, hash) && IsRule(host, pr, rule) && p0 == plan.View() && PlanGraph.Valid(Graph(p0.steps))
      requires first == BoundOf(hash, p0, RunState(map[], "", None, pr.actualOutput))
      modifies this, plan, plan.steps
      ensures LoopOk(host, pr.sourceIsSolana, p0, plan.View(), first, BoundOf(hash, plan.View(), st), turns)
      ensures Mirrors(plan.Steps(), st.stepState)
      ensures registry == RegistryThrough(old(registry), p0.header.planId, turns) && SkipRules(old(registry), p0.header.planId, turns)
      ensures AllAnswered(rule, world, old(registry), p0.header.planId, turns)
      ensures trace == old(trace) + RunLaws.Trace(turns)
      ensures error != Some(DependencyBlocked)
      ensures error.None? ==> |turns| == |Order(p0)| && DoneSoFar(plan.Steps(), turns)
      ensures error.Some? ==> turns != [] && !turns[|turns|-1].proceeds
      ensures error.Some? ==> StoppedBy(world(turns[|turns|-1].step.id), turns[|turns|-1], error.value)
    {
      var ordered := KahnOrder.GetTopologicalOrder(Graph(plan.Steps()));
      DistinctObjects(plan);
      var m := StepMap(plan.Steps());
      var st0 := RunState(m, "", None, pr.actualOutput);
      st, error, turns := RunSteps(host, hash, rule, plan, p0, PlanGraph.Ids(Graph(plan.Steps())), ordered.order, pr, world, st0, first);
    }
  }
}
