/** What one executeTrade run looks like from outside: a sequence of turns, one per step of the
    topological order, each with what was read, done and changed. The coordinator's methods are
    proved to produce such runs; RunLaws derives the safety properties from them. */
module RunModel {
  import opened Js
  import opened PlanModel
  import opened CanonicalJson
  import KahnOrder

  /** Calls with an effect outside the coordinator. */
  datatype Action =
    | CheckAllowance
    | ApproveToken(allowance: string)
    | Transact(amountIn: Option<string>)
    | SolanaSwap
    | RequestQuote(amount: string)
    | BuildExecution
    | RegisterOrder
    | TrackOrder
    | SolverExecution
    | VerifySettlement

  /** What a step does once it may execute: outside calls, and writes to hashed plan fields. A write
      is Resealed when followed by sealPlan, Unsealed when it changes a hashed value without one. */
  datatype Work = Did(action: Action) | Resealed | Unsealed

  /** A repository record of a step. */
  datatype Stored = Stored(status: StepStatus, txHash: Option<string>)

  /** How one step went. */
  datatype Visit =
    | Blocked                                     // a dependency was not SUCCESS
    | LeaseRefused
    | ReadFailed                                  // getPlanStep threw
    | Skip(stored: Option<Stored>, hash: Option<string>)
    | TransactionsUnread(stored: Option<Stored>)  // getTransactionsForStep threw
    | UncertainBroadcast(stored: Option<Stored>)
    | Worked(stored: Option<Stored>, work: seq<Work>, result: Option<Option<string>>)
    // result: Some(hash recorded in the registry) on success, None on failure

  /** The step ended in SUCCESS. */
  predicate Completed(v: Visit) {
    v.Skip? || (v.Worked? && v.result.Some?)
  }

  /** The requiredAmountRaw of the plan's first deposit step, if it has one. */
  datatype DepositAmount = NoDeposit | Amount(raw: Option<string>)

  /** What the run carries from step to step. */
  datatype Bound = Bound(
    output: Option<int>,          // lastSourceSwapOutput
    sealed: bool,                 // stored hash == recomputed hash
    deposit: DepositAmount,
    txHash: string,
    destTxHash: Option<string>)

  /** One iteration of the step loop; `step` is the step object's contents when the turn began, and
      `ended` when it was over. `released` is false exactly when a lease was taken and releaseLease threw. */
  datatype Turn = Turn(step: Step, before: Bound, visit: Visit, released: bool, proceeds: bool, after: Bound, ended: Step)

  // ----- Lease events -----

  datatype LeaseEvent = Taken(id: string) | Released(id: string) | Called(id: string, action: Action)

  function WorkEvents(id: string, work: seq<Work>): seq<LeaseEvent> {
    if work == [] then []
    else (match work[0] case Did(a) => [Called(id, a)] case _ => []) + WorkEvents(id, work[1..])
  }

  function WorkOf(v: Visit): seq<Work> { if v.Worked? then v.work else [] }

  predicate TookLease(v: Visit) { !v.Blocked? && !v.LeaseRefused? }

  /** The events of one turn, in order: whatever the step does lies after its lease is taken, and the
      lease is given back unless the release throws. */
  function Events(t: Turn): seq<LeaseEvent> {
    var id := t.step.id;
    if TookLease(t.visit) then
      [Taken(id)] + WorkEvents(id, WorkOf(t.visit)) + (if t.released then [Released(id)] else [])
    else []
  }

  // ----- The rules of a turn -----

  /** persistedStep?.txHash || existingExecution?.txHash || step.txHash */
  function SkipHash(stored: Option<string>, recorded: Option<string>, own: Option<string>): Option<string> {
    Or(stored, Or(recorded, own))
  }

  function HashOf(v: Visit): Option<string> {
    match v
    case Skip(_, h) => h
    case Worked(_, _, Some(h)) => h
    case _ => None
  }

  predicate SourceHashKind(k: StepKind) { k == SourceSwap || k == BridgeDeposit }
  predicate DestHashKind(k: StepKind) { k == DestinationSwap || k == BridgeRelayWait }

  function NextTxHash(k: StepKind, txHash: string, h: Option<string>): string {
    if SourceHashKind(k) && Truthy(h) then h.value else txHash
  }

  function NextDestHash(k: StepKind, dest: Option<string>, h: Option<string>): Option<string> {
    if DestHashKind(k) && Truthy(h) then h else dest
  }

  /** A turn goes on to the next step only from SUCCESS. */
  predicate ProceedsOk(t: Turn) {
    t.proceeds ==>
      && Completed(t.visit) && t.released
      && t.after.txHash == NextTxHash(t.step.kind, t.before.txHash, HashOf(t.visit))
      && t.after.destTxHash == NextDestHash(t.step.kind, t.before.destTxHash, HashOf(t.visit))
  }

  /** The known swap output is fixed once known, and only an executed source swap makes it known. */
  predicate OutputOk(t: Turn) {
    && (t.before.output.Some? ==> t.after.output == t.before.output)
    && (t.after.output != t.before.output ==> t.step.kind == SourceSwap && t.visit.Worked?)
  }

  /** An executed deposit or refresh uses the known output; an executed EVM swap meets its minimum. */
  ghost predicate AmountsOk(host: Host, sourceIsSolana: bool, t: Turn) {
    t.visit.Worked? ==>
      && (t.step.kind == BridgeDeposit && t.before.output.Some? ==>
            forall a :: Did(Transact(a)) in t.visit.work ==> a == Some(Decimal(t.before.output.value)))
      && (t.step.kind == BridgeQuoteRefresh && t.before.output.Some? ==>
            forall a :: Did(RequestQuote(a)) in t.visit.work ==> a == Decimal(t.before.output.value))
      && (t.step.kind == SourceSwap && !sourceIsSolana && t.visit.result.Some? && t.after.output.Some?
          && Truthy(t.step.minimumAmountOutRaw) ==>
            && host.bigInt(t.step.minimumAmountOutRaw.value).Some?
            && host.bigInt(t.step.minimumAmountOutRaw.value).value <= t.after.output.value)
  }

  /** The amount a refresh asks its quote for and passes on to the first deposit. */
  function AskedAmount(s: Step, output: Option<int>): string {
    if output.Some? then Decimal(output.value)
    else if Truthy(s.requiredAmountRaw) then s.requiredAmountRaw.value
    else "0"
  }

  function RefreshAmount(t: Turn): string { AskedAmount(t.step, t.before.output) }

  /** How a turn treats the seal and the first deposit's amount. */
  ghost predicate SealOk(host: Host, t: Turn) {
    && (t.visit.Worked? || (t.after.sealed == t.before.sealed && t.after.deposit == t.before.deposit))
    && (t.visit.Worked? ==>
          && (Resealed in t.visit.work ==> t.after.sealed && t.step.kind == BridgeQuoteRefresh)
          && (Resealed !in t.visit.work && Unsealed !in t.visit.work ==> t.after.sealed == t.before.sealed)
          && (Unsealed in t.visit.work && t.before.sealed && host.CollisionFree() ==> !t.after.sealed)
          && (Unsealed in t.visit.work ==> Resealed !in t.visit.work)
          && (t.step.kind != BridgeQuoteRefresh && t.step.kind != BridgeDeposit ==>
                Unsealed !in t.visit.work && t.after.deposit == t.before.deposit)
          && (t.step.kind == BridgeDeposit ==>
                (Unsealed in t.visit.work <==>
                   t.before.output.Some? && OrEmpty(t.step.requiredAmountRaw) != Decimal(t.before.output.value)))
          && (t.step.kind == BridgeQuoteRefresh && t.visit.result.Some? ==>
                && (t.before.deposit.Amount? ==> t.after.deposit == Amount(Some(RefreshAmount(t))))
                && (t.before.deposit.NoDeposit? ==> t.after.deposit.NoDeposit?)
                && (Resealed !in t.visit.work ==>
                      (Unsealed in t.visit.work <==>
                         t.before.deposit.Amount? && OrEmpty(t.before.deposit.raw) != RefreshAmount(t)))))
  }

  ghost predicate TurnOk(host: Host, sourceIsSolana: bool, t: Turn) {
    ProceedsOk(t) && OutputOk(t) && AmountsOk(host, sourceIsSolana, t) && SealOk(host, t)
  }

  /** A step object at any point of a run, against the plan the run started with: only the call
      fields of a deposit and run-time progress ever change. */
  predicate SameStep(planned: Step, now: Step) {
    planned.(targetAddress := now.targetAddress, calldata := now.calldata, approvalTarget := now.approvalTarget,
      requiredAmountRaw := now.requiredAmountRaw, status := now.status, txHash := now.txHash, error := now.error) == now
  }

  function Order(p: Plan): seq<string> {
    KahnOrder.TopologicalOrder(Graph(p.steps))
  }

  /** A turn in place i of a run on plan p: about the i-th step of the order, never blocked. */
  ghost predicate TurnFits(host: Host, sourceIsSolana: bool, p: Plan, i: nat, t: Turn)
    requires i < |Order(p)|
  {
    && TurnOk(host, sourceIsSolana, t) && t.step.id == Order(p)[i] && !t.visit.Blocked? && DepositInStep(p, t)
    && exists k :: 0 <= k < |p.steps| && SameStep(p.steps[k], t.step)
  }

  /** The turns of a run on plan p: they follow the topological order, each hands its state to the
      next, and only the last may fail to proceed. */
  ghost predicate RunOk(host: Host, sourceIsSolana: bool, p: Plan, turns: seq<Turn>) {
    && |turns| <= |Order(p)|
    && (forall i :: 0 <= i < |turns| ==> TurnFits(host, sourceIsSolana, p, i, turns[i]))
    && (forall i, j :: 0 <= i < |turns| && 0 <= j < |turns| && j == i + 1 ==> turns[j].before == turns[i].after)
    && (forall i :: 0 <= i < |turns| - 1 ==> turns[i].proceeds)
  }

  /** The first deposit's own turn starts from the tracked amount. */
  predicate DepositInStep(p: Plan, t: Turn) {
    var d := FindKind(p.steps, BridgeDeposit);
    d.Some? && t.step.id == p.steps[d.value].id ==> t.before.deposit == Amount(t.step.requiredAmountRaw)
  }
}
