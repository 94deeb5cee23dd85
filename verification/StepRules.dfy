/** What becomes of a step in one iteration of the loop, in terms of what the world answers about it.
    The coordinator's methods are proved to keep to these rules. */
module StepRules {
  import opened Js
  import opened PlanModel
  import opened CanonicalJson
  import opened RunModel
  import opened Environment

  /** What a run depends on besides plan and world. */
  datatype Params = Params(
    sourceIsSolana: bool, crossChain: bool, unsupported: bool, destSigner: bool, skipDestinationWait: bool,
    hasBridgeQuote: bool, actualOutput: Option<int>)

  /** The locals a step can change: txHash, destinationTxHash and lastSourceSwapOutput. */
  datatype Locals = Locals(txHash: string, destTxHash: Option<string>, output: Option<int>)

  /** One execution of a step: what it found, called, and left. A result is the hash recorded. */
  datatype Deed = Deed(step: Step, before: Locals, work: seq<Work>, result: Option<Option<string>>, ended: Step, after: Locals)

  // ----- How an execution can end -----

  predicate Succeeds(d: Deed, stepTx: Option<string>, registryTx: Option<string>) {
    d.result == Some(registryTx) && d.ended == d.step.(status := Success, txHash := stepTx)
  }

  /** The step is marked FAILED before the run throws. */
  predicate Fails(d: Deed, error: Option<string>) {
    d.result == None && d.ended == d.step.(status := Failed, error := error)
  }

  /** The run throws, and the step stays as it was. */
  predicate Throws(d: Deed) { d.result == None && d.ended == d.step }

  predicate Nothing(d: Deed) { d.work == [] && d.after == d.before }

  // ----- The cases of the switch -----

  predicate ValidationBy(a: StepAnswers, d: Deed) {
    Nothing(d) && if a.starts then Succeeds(d, d.step.txHash, None) else Throws(d)
  }

  predicate SettlementBy(d: Deed) { Nothing(d) && Succeeds(d, d.step.txHash, None) }

  predicate NeedsAllowance(s: Step, signer: bool) {
    && s.environment == EVM && signer
    && Truthy(s.requiredTokenAddress) && Truthy(s.approvalTarget) && Truthy(s.requiredAmountRaw)
  }

  predicate OwnCall(s: Step) { Truthy(s.calldata) && s.calldata.value != "0x" }

  /** APPROVAL and SOURCE_APPROVAL record a hash, DESTINATION_APPROVAL none. */
  predicate ApprovalBy(host: Host, a: StepAnswers, d: Deed, signer: bool, records: bool) {
    if !NeedsAllowance(d.step, signer) then Nothing(d) && Succeeds(d, d.step.txHash, None)
    else if !a.starts then Nothing(d) && Throws(d)
    else d.after == d.before && AllowanceBy(host, a, d, records)
  }

  predicate AllowanceBy(host: Host, a: StepAnswers, d: Deed, records: bool)
    requires d.step.requiredAmountRaw.Some?
  {
    var required := host.bigInt(d.step.requiredAmountRaw.value);
    if a.allowance.Thrown? || required.None? then d.work == [Did(CheckAllowance)] && Throws(d)
    else if required.value <= a.allowance.value then
      d.work == [Did(CheckAllowance)] && Succeeds(d, d.step.txHash, if records then d.step.txHash else None)
    else if OwnCall(d.step) then
      && d.work == [Did(CheckAllowance), Did(Transact(d.step.requiredAmountRaw))]
      && match a.sent
         case Thrown => Throws(d)
         case Returned(m) => if records then Succeeds(d, Some(m.txHash), Some(m.txHash)) else Succeeds(d, d.step.txHash, None)
    else
      && d.work == [Did(CheckAllowance), Did(ApproveToken(d.step.requiredAmountRaw.value))]
      && match a.approved
         case Thrown => Throws(d)
         case Returned(hash) => Succeeds(d, hash, if records then hash else None)
  }

  /** The minimum a swap states, read as the code reads it. */
  function StatedMinimum(host: Host, s: Step): Option<int> {
    host.bigInt(if Truthy(s.minimumAmountOutRaw) then s.minimumAmountOutRaw.value else "0")
  }

  predicate AtLeast(minimum: Option<int>, amount: Option<int>) {
    minimum.Some? && amount.Some? && minimum.value <= amount.value
  }

  predicate SwapBy(host: Host, solana: bool, a: StepAnswers, d: Deed) {
    if solana then
      && d.work == [Did(SolanaSwap)]
      && match a.sent
         case Thrown => Throws(d) && d.after == d.before.(txHash := if Truthy(a.reported) then a.reported.value else d.before.txHash)
         case Returned(m) => Succeeds(d, Some(m.txHash), Some(m.txHash)) && d.after == d.before.(txHash := m.txHash)
    else if !a.starts then Nothing(d) && Throws(d)
    else
      && d.work == [Did(Transact(d.step.requiredAmountRaw))]
      && match a.sent
         case Thrown => Fails(d, a.message) && d.after == d.before
         case Returned(m) => MinedSwapBy(host, a, m, d)
  }

  /** A mined EVM swap must establish an output of at least the stated minimum; one that is known already
      is kept, one that cannot be looked for stays unknown. */
  predicate MinedSwapBy(host: Host, a: StepAnswers, m: Mined, d: Deed) {
    var looks := d.before.output.None? && m.hasReceipt && Truthy(d.step.outputTokenAddress);
    var output := if looks then a.arrived else d.before.output;
    var good := if looks then AtLeast(StatedMinimum(host, d.step), a.arrived)
                else d.before.output.None? || !Truthy(d.step.minimumAmountOutRaw) || AtLeast(StatedMinimum(host, d.step), d.before.output);
    if good then Succeeds(d, Some(m.txHash), Some(m.txHash)) && d.after == Locals(m.txHash, d.before.destTxHash, output)
    else Fails(d, a.message) && d.after == d.before.(txHash := m.txHash)
  }

  /** The amount a refresh asks for: the known output, else the step's own, else "0". */
  function QuotedAmount(s: Step, output: Option<int>): string {
    match output
    case Some(n) => Decimal(n)
    case None => if Truthy(s.requiredAmountRaw) then s.requiredAmountRaw.value else "0"
  }

  /** A refresh asks once, builds only an executable quote, and reseals exactly when that was built;
      whether a refresh without a quote unseals is the subject of RefreshOk. */
  predicate RefreshBy(a: StepAnswers, d: Deed) {
    var ask := Did(RequestQuote(QuotedAmount(d.step, d.before.output)));
    && d.after == d.before
    && if !a.starts then d.work == [] && Throws(d)
       else match a.quote
         case Thrown => d.work == [ask] && Throws(d)
         case Returned(None) => d.work in {[ask], [ask, Unsealed]} && Succeeds(d, d.step.txHash, None)
         case Returned(Some(q)) =>
           if !q.executable then d.work == [ask] && Throws(d)
           else if !a.built then d.work == [ask, Did(BuildExecution)] && Throws(d)
           else d.work == [ask, Did(BuildExecution), Resealed] && Succeeds(d, d.step.txHash, None)
  }

  /** A deposit moves the known output, whatever amount its step names, and the step is made to say so. */
  predicate DepositBy(a: StepAnswers, d: Deed) {
    var amount := if d.before.output.Some? then Some(Decimal(d.before.output.value)) else d.step.requiredAmountRaw;
    var rewrite := if d.step.requiredAmountRaw == amount then [] else [Unsealed];
    var step := d.step.(requiredAmountRaw := amount);
    if !a.starts then d.work == rewrite && d.result == None && d.ended == step && d.after == d.before
    else
      && d.work == rewrite + [Did(Transact(amount))]
      && match a.sent
         case Thrown => d.result == None && d.ended == step.(status := Failed, error := a.message) && d.after == d.before
         case Returned(m) =>
           && d.result == Some(Some(m.txHash)) && d.ended == step.(status := Success, txHash := Some(m.txHash))
           && d.after == d.before.(txHash := m.txHash)
  }

  predicate RelayBy(pr: Params, a: StepAnswers, d: Deed) {
    if !a.starts then Nothing(d) && Throws(d)
    else if pr.skipDestinationWait || !pr.hasBridgeQuote then
      d.work == [Did(RegisterOrder)] && Succeeds(d, d.step.txHash, None) && d.after == d.before
    else
      && d.work == [Did(RegisterOrder), Did(TrackOrder)]
      && if a.tracked.Thrown? then Throws(d) && d.after == d.before
         else if a.tracked.value.Settled? && Truthy(a.tracked.value.destTxHash) then
           var hash := a.tracked.value.destTxHash;
           Succeeds(d, hash, hash) && d.after == d.before.(destTxHash := hash)
         else Fails(d, d.step.error) && d.after == d.before
  }

  predicate DestinationSwapBy(pr: Params, a: StepAnswers, d: Deed) {
    if pr.unsupported then Nothing(d) && Throws(d)
    else if !a.starts then Nothing(d) && Fails(d, d.step.error)
    else
      && d.work == [Did(if pr.destSigner then Transact(d.step.requiredAmountRaw) else SolverExecution)]
      && match a.sent
         case Thrown =>
           && Fails(d, d.step.error)
           && d.after == d.before.(destTxHash := if pr.destSigner && Truthy(a.reported) then a.reported else d.before.destTxHash)
         case Returned(m) => Succeeds(d, Some(m.txHash), Some(m.txHash)) && d.after == d.before.(destTxHash := Some(m.txHash))
  }

  predicate VerifyBy(pr: Params, a: StepAnswers, d: Deed) {
    var verifies := pr.crossChain && !pr.skipDestinationWait && d.step.environment == EVM && Truthy(d.before.destTxHash);
    && d.after == d.before && d.work == (if verifies then [Did(VerifySettlement)] else [])
    && if !verifies || a.verified == Returned(true) then Succeeds(d, d.step.txHash, None)
       else if a.verified.Thrown? then Throws(d)
       else Fails(d, d.step.error)
  }

  predicate DoneBy(host: Host, pr: Params, a: StepAnswers, d: Deed) {
    match d.step.kind
    case Validation => ValidationBy(a, d)
    case Approval => ApprovalBy(host, a, d, true, true)
    case SourceApproval => ApprovalBy(host, a, d, true, true)
    case SourceSwap => SwapBy(host, pr.sourceIsSolana, a, d)
    case BridgeQuoteRefresh => RefreshBy(a, d)
    case BridgeDeposit => DepositBy(a, d)
    case BridgeRelayWait => RelayBy(pr, a, d)
    case DestinationApproval => ApprovalBy(host, a, d, pr.destSigner, false)
    case DestinationSwap => DestinationSwapBy(pr, a, d)
    case DestinationVerify => VerifyBy(pr, a, d)
    case SettlementComplete => SettlementBy(d)
  }

  // DoneBy is handed around as a function value, so that proofs about runs do not look into it.

  type Rule = (StepAnswers, Deed) -> bool

  ghost predicate RuleAgrees(host: Host, pr: Params, rule: Rule, a: StepAnswers, d: Deed) {
    rule(a, d) == DoneBy(host, pr, a, d)
  }

  ghost predicate IsRule(host: Host, pr: Params, rule: Rule) {
    forall a, d :: RuleAgrees(host, pr, rule, a, d)
  }

  ghost function DoneRule(host: Host, pr: Params): (rule: Rule)
    ensures IsRule(host, pr, rule)
  {
    var rule := (a: StepAnswers, d: Deed) => DoneBy(host, pr, a, d);
    assert forall a, d :: RuleAgrees(host, pr, rule, a, d);
    rule
  }

  // ----- The iteration around it -----

  function LocalsOf(b: Bound): Locals { Locals(b.txHash, b.destTxHash, b.output) }

  function DeedOf(t: Turn): Deed
    requires t.visit.Worked?
  {
    Deed(t.step, LocalsOf(t.before), t.visit.work, t.visit.result, t.ended, LocalsOf(t.after))
  }

  /** The coordinator's registry entry of a key. */
  function Entry(reg: map<string, Stored>, key: string): Option<Stored> {
    if key in reg then Some(reg[key]) else None
  }

  predicate SaysSuccess(s: Option<Stored>) { s.Some? && s.value.status == Success }

  function HashIn(s: Option<Stored>): Option<string> { if s.Some? then s.value.txHash else None }

  /** A step is known to be finished from the repository, the registry, or its own object. */
  predicate KnownFinished(record: Option<Stored>, entry: Option<Stored>, s: Step) {
    SaysSuccess(record) || SaysSuccess(entry) || s.status == Success
  }

  /** The first non-empty of the repository's, the registry's and the step's own hash. */
  function KnownHash(record: Option<Stored>, entry: Option<Stored>, s: Step): Option<string> {
    if Truthy(HashIn(record)) then HashIn(record)
    else if Truthy(HashIn(entry)) then HashIn(entry)
    else s.txHash
  }

  predicate Unmoved(t: Turn) { t.ended == t.step && t.after == t.before }

  predicate SkippedBy(record: Option<Stored>, entry: Option<Stored>, t: Turn) {
    var hash := KnownHash(record, entry, t.step);
    && t.visit == Skip(record, hash) && t.ended == t.step.(status := Success, txHash := hash)
    && t.after == t.before.(
         txHash := if t.step.kind in {SourceSwap, BridgeDeposit} && Truthy(hash) then hash.value else t.before.txHash,
         destTxHash := if t.step.kind in {DestinationSwap, BridgeRelayWait} && Truthy(hash) then hash else t.before.destTxHash)
  }

  /** The part of an iteration that runs under the lease. */
  predicate VisitedBy(rule: Rule, a: StepAnswers, entry: Option<Stored>, t: Turn) {
    match a.record
    case Thrown => t.visit == ReadFailed && Unmoved(t)
    case Returned(record) =>
      if KnownFinished(record, entry, t.step) then SkippedBy(record, entry, t)
      else match a.uncertain
        case Thrown => t.visit == TransactionsUnread(record) && Unmoved(t)
        case Returned(true) => t.visit == UncertainBroadcast(record) && Unmoved(t)
        case Returned(false) => t.visit.Worked? && t.visit.stored == record && rule(a, DeedOf(t))
  }

  /** An iteration whose step is not blocked by a dependency. */
  predicate AnsweredBy(rule: Rule, a: StepAnswers, entry: Option<Stored>, t: Turn) {
    if a.lease == Returned(true) then
      && VisitedBy(rule, a, entry, t)
      && t.released == a.released && t.proceeds == (Completed(t.visit) && a.released && a.ends)
    else t.visit == LeaseRefused && Unmoved(t) && !t.proceeds
  }

  lemma RuleGives(host: Host, pr: Params, a: StepAnswers, d: Deed)
    requires DoneRule(host, pr)(a, d)
    ensures DoneBy(host, pr, a, d)
  {
    assert RuleAgrees(host, pr, DoneRule(host, pr), a, d);
  }

  lemma WorkedDone(rule: Rule, a: StepAnswers, entry: Option<Stored>, turn: Turn)
    requires AnsweredBy(rule, a, entry, turn) && turn.visit.Worked?
    ensures rule(a, DeedOf(turn))
  {
  }
}
