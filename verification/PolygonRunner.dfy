/** runControlledPolygonCrossChainExecution: the mainnet runner. As in CompositeRunner the world is a
    record of arbitrary answers; here a failed send carries its message, which may be ambiguous. */
module PolygonRunner {
  import opened Js
  import opened CanonicalJson
  import opened Environment
  import opened Broadcasts
  import opened GateRows
  import opened PlanFingerprint
  import AcrossRequest

  const SOURCE_TOKEN := "CONFIRM_POLYGON_ARBITRUM_MAINNET"
  const BRIDGE_TOKEN := "CONFIRM_ACROSS_MAINNET"
  const OPERATOR := "0xd2206dB611d5677c8552A9DCBaDf3077aDB4Af88"
  const COMPROMISED := "0xAb5801a7D398351b8bE11C439e05C5B3259aeC9B"
  const ACROSS_MINIMUM := 500150
  const ETHER := 1_000_000_000_000_000_000

  datatype Mode = READ_ONLY | READ_ONLY_LIVE | PREFLIGHT_ONLY | LIVE_ONCHAIN | Other

  datatype Options = Options(
    mode: Mode, amountInWei: int, stopAtGate: bool, mutatePlan: bool, skipSignerInit: bool,
    injectedWallet: Option<string>, injectedProvider: bool, expectedRecipient: Option<string>,
    simulateUncertainty: bool, simulateSwapRevert: bool, simulateConflict: bool,
    simulateMissingReceipt: bool, simulateDestinationRevert: bool,
    mainnetConfirm: Option<string>, liveConfirm: Option<string>,
    mainnetBridgeConfirm: Option<string>, bridgeConfirm: Option<string>)

  datatype Send = Sent(hash: string) | SendFailed(message: Option<string>)

  datatype Extraction = Extracted(amount: int) | Conflict | Unverified

  datatype Poll = Filled(fill: string) | RefundedOrExpired | Pending

  datatype Answers = Answers(
    sourceNetwork: Answer<int>, destNetwork: Answer<int>, block: bool, code: Answer<bool>,
    keyAddress: Option<string>,            // the address of the environment's key, if it makes a wallet
    validAddress: string -> bool, balance: Answer<int>, maxFee: Answer<int>, planBuilt: bool,
    planId: string,
    swapCall: bool, swapSend: Send, swapReceipt: Answer<bool>, conflictProbe: Extraction, extraction: Extraction,
    freshQuote: Answer<Option<Option<int>>>, // null, or a quote, with the amount its calldata deposits if it has any
    allowance: Answer<int>, approveSend: Send, approveMined: bool,
    simulates: bool,                       // the provider has eth_call to try the deposit with
    bridgeCall: bool, bridgeSend: Send, bridgeReceipt: Answer<bool>,
    polls: seq<Poll>, fillReceipt: Answer<Option<bool>>, metrics: bool)

  datatype Status =
    | LIVE_MAINNET_EXECUTION_SETTLED | READY_FOR_CONTROLLED_BRIDGE_BROADCAST | READY_FOR_LIVE_BROADCAST
    | BLOCKED_PRE_BROADCAST_VALIDATION | BLOCKED_NETWORK_SAFETY | BLOCKED_SIGNER_ADDRESS_MISMATCH
    | BLOCKED_RECIPIENT_ADDRESS_MISMATCH | BLOCKED_NO_FUNDED_KEY | BLOCKED_INSUFFICIENT_FUNDS
    | BLOCKED_OPERATOR_CONFIRMATION | BLOCKED_PLAN_MUTATION | BLOCKED_SOURCE_PREFLIGHT | BROADCAST_UNCERTAIN
    | FAILED_WITH_VERIFIED_REVERT | STATUS_CONFLICT | BLOCKED_ACTUAL_OUTPUT_UNVERIFIED
    | BLOCKED_ACROSS_MIN_DEPOSIT_AFTER_FRESH_QUOTE | BLOCKED_BRIDGE_PREFLIGHT | DESTINATION_STATUS_UNCERTAIN
    | DESTINATION_RECEIPT_REVERT | BRIDGE_EXECUTION_FAILED | BLOCKED_DURING_EXECUTION | BLOCKED_PRE_BROADCAST
    | Rejected // the runner itself throws

  /** The result's hashes, with the sends that were made to get there. */
  datatype Outcome = Outcome(
    status: Status, sourceTxHash: Option<string>, approvalTxHash: Option<string>, bridgeTxHash: Option<string>, trace: seq<Broadcast>)

  function HashOf(s: Send): Option<string> { if s.Sent? then Some(s.hash) else None }

  // ----- The quote's floor arithmetic -----

  function ExpectedOutput(amountInWei: int): int { amountInWei * 103577 / ETHER }

  function MinimumOutput(amountInWei: int): int { ExpectedOutput(amountInWei) * 995 / 1000 }

  /** The stated minimum reaches the bridge's smallest deposit exactly from this much input on. */
  lemma MinimumReachesAcross(amountInWei: int)
    ensures MinimumOutput(amountInWei) >= ACROSS_MINIMUM <==> amountInWei * 103577 >= 502664 * ETHER
  {
    var e := ExpectedOutput(amountInWei);
    assert amountInWei * 103577 >= 502664 * ETHER <==> e >= 502664;
    assert e * 995 / 1000 >= 500150 <==> e >= 502664;
  }

  /** The runner's low-amount warning tests 4.9 POL as well, to no effect. */
  lemma WarningNeedsOneTest(amountInWei: int)
    requires MinimumOutput(amountInWei) < ACROSS_MINIMUM
    ensures amountInWei < 4_900_000_000_000_000_000
  {
    MinimumReachesAcross(amountInWei);
  }

  // ----- Ambiguous errors -----

  const NEEDLES := ["timeout", "etimedout", "esockettimedout", "network error", "connection reset", "econnreset",
                    "response dropped", "already known", "replacement underpriced", "nonce too low"]

  predicate Includes(s: string, needle: string) {
    exists i :: 0 <= i <= |s| && needle <= s[i..]
  }

  /** isAmbiguousBroadcastError */
  predicate Ambiguous(host: Host, message: Option<string>) {
    exists needle :: needle in NEEDLES && Includes(host.lower(OrEmpty(message)), needle)
  }

  const SIMULATED_TIMEOUT := "ETIMEDOUT: Connection timeout during transaction broadcast"

  // ----- What each stage needs, said once -----

  /** The wallet's address: injected, or made from the environment's key. */
  function Wallet(o: Options, a: Answers): Option<string> {
    if o.skipSignerInit then None else if o.injectedWallet.Some? then o.injectedWallet else a.keyAddress
  }

  function User(o: Options, a: Answers): string {
    if Wallet(o, a).Some? then Wallet(o, a).value else OPERATOR
  }

  function Recipient(o: Options, a: Answers): string {
    if Truthy(o.expectedRecipient) then o.expectedRecipient.value else User(o, a)
  }

  predicate NetworksRight(a: Answers) {
    a.sourceNetwork == Returned(137) && a.destNetwork == Returned(42161) && a.block && a.code == Returned(true)
  }

  predicate AddressesRight(host: Host, o: Options, a: Answers) {
    var user, recipient := host.lower(User(o, a)), host.lower(Recipient(o, a));
    && (Wallet(o, a).Some? ==> user != host.lower(COMPROMISED))
    && a.validAddress(User(o, a)) && a.validAddress(Recipient(o, a))
    && (Wallet(o, a).Some? && o.injectedWallet.None? ==> user == host.lower(OPERATOR) && recipient == host.lower(OPERATOR))
    && recipient == user
  }

  function MaxFee(a: Answers): int
    requires a.maxFee.Returned?
  {
    if a.maxFee.value != 0 then a.maxFee.value else 390_000_000_000
  }

  function Balance(a: Answers): int { if a.balance.Returned? then a.balance.value else 0 }

  predicate Funded(o: Options, a: Answers) {
    a.maxFee.Returned? && o.amountInWei + 378000 * MaxFee(a) <= Balance(a)
  }

  const WRAPPED_POL := "0x0d500B1d8E8eF31E21C99d1Db9A6444d3ADf1270"
  const POLYGON_USDC := "0x3c499c542cEF5E3811e1192ce70d8cC03d5c3359"
  const ARBITRUM_USDC := "0xaf88d065e77c8cC2239327C5EDb3A432268e5831"
  const SPOKE_POOL := "0x9295ee1d8C5b022Be115A2AD3c30C72E34e7F096"
  const ROUTER := "0x68b3465833fb72A70ecDF485E0e4C7bD8665Fc45"
  const DEAD_TARGET := "0x000000000000000000000000000000000000dead"

  /** The plan the runner builds, in its fingerprinted fields. */
  function BuiltPlan(o: Options, a: Answers): RunnerPlan {
    RunnerPlan(a.planId, "COMPOSITE_CROSS_CHAIN", 137, 42161, Some(WRAPPED_POL), Some(ARBITRUM_USDC), Decimal(o.amountInWei),
      Some(User(o, a)), Some(Recipient(o, a)),
      [ RunnerStep("step-1-validate", "VALIDATE_CONDITIONS", 137, None),
        RunnerStep("step-2-source-swap", "SOURCE_DEX_SWAP", 137, Some(ROUTER)),
        RunnerStep("step-3-bridge-requote", "BRIDGE_QUOTE_REFRESH", 137, None),
        RunnerStep("step-4-bridge-approval", "SOURCE_APPROVE", 137, Some(POLYGON_USDC)),
        RunnerStep("step-5-bridge-deposit", "BRIDGE_DEPOSIT", 137, Some(SPOKE_POOL)),
        RunnerStep("step-6-relay-wait", "CROSS_CHAIN_RELAY_WAIT", 42161, None),
        RunnerStep("step-7-dest-verify", "DESTINATION_VERIFY", 42161, None),
        RunnerStep("step-8-settlement", "SETTLEMENT_COMPLETE", 42161, None) ])
  }

  function Retargeted(p: RunnerPlan): RunnerPlan
    requires |p.steps| > 1
  {
    p.(steps := p.steps[1 := p.steps[1].(target := Some(DEAD_TARGET))])
  }

  /** The plan as it stands when its fingerprint is compared. */
  function PresentedPlan(o: Options, a: Answers): RunnerPlan {
    if o.mutatePlan then Retargeted(BuiltPlan(o, a)) else BuiltPlan(o, a)
  }

  predicate Unchanged(planHash: RunnerPlan -> string, o: Options, a: Answers) {
    planHash(PresentedPlan(o, a)) == planHash(BuiltPlan(o, a))
  }

  /** The comparison catches the retargeted swap, and nothing else; with it no gate opens. */
  lemma MutationIsCaught(host: Host, planHash: RunnerPlan -> string, o: Options, a: Answers)
    requires forall p :: planHash(p) == Fingerprint(host, p)
    requires host.CollisionFree() && host.lower(ROUTER) != host.lower(DEAD_TARGET)
    ensures Unchanged(planHash, o, a) <==> !o.mutatePlan
    ensures o.mutatePlan ==> !Cleared(host, planHash, o, a)
  {
    FingerprintExact(host, PresentedPlan(o, a), BuiltPlan(o, a));
    if o.mutatePlan {
      var i := 1;
      assert Some(ROUTER).value != "" && Some(DEAD_TARGET).value != "";
      assert !StepAlike(host, PresentedPlan(o, a).steps[i], BuiltPlan(o, a).steps[i]);
    }
  }

  predicate SourceConfirmed(o: Options) { Or(o.mainnetConfirm, o.liveConfirm) == Some(SOURCE_TOKEN) }

  predicate BridgeConfirmed(o: Options) { Or(o.mainnetBridgeConfirm, o.bridgeConfirm) == Some(BRIDGE_TOKEN) }

  /** Every gate before the first send. */
  predicate Cleared(host: Host, planHash: RunnerPlan -> string, o: Options, a: Answers) {
    && NetworksRight(a) && AddressesRight(host, o, a) && a.maxFee.Returned? && a.planBuilt
    && o.mode == LIVE_ONCHAIN && Wallet(o, a).Some? && Funded(o, a) && SourceConfirmed(o) && !o.stopAtGate
    && Unchanged(planHash, o, a) && a.swapCall
  }

  /** The swap is mined, its output established and large enough to bridge. */
  predicate SwapSettled(o: Options, a: Answers) {
    && a.swapSend.Sent? && a.swapReceipt == Returned(true) && !o.simulateSwapRevert
    && (o.simulateConflict ==> a.conflictProbe.Extracted?)
    && a.extraction.Extracted? && a.extraction.amount >= ACROSS_MINIMUM
  }

  predicate AllowanceShort(a: Answers)
    requires a.extraction.Extracted?
  {
    a.allowance.Returned? && a.allowance.value < a.extraction.amount
  }

  predicate ApprovalSent(o: Options, a: Answers) {
    !o.simulateUncertainty && SwapSettled(o, a) && AllowanceShort(a)
  }

  predicate BridgeSent(o: Options, a: Answers) {
    !o.simulateUncertainty && SwapSettled(o, a) && BridgeConfirmed(o) && QuoteUsable(a) && a.bridgeCall
  }

  /** A quote came, or the request threw and the runner made one up; null is neither. */
  predicate QuoteUsable(a: Answers) { a.freshQuote.Returned? ==> a.freshQuote.value.Some? }

  /** What is sent to the bridge: the fresh quote's call, or, if the request threw, one that deposits the
      output. A quote without calldata is sent as it is. */
  function DepositCall(a: Answers): Broadcast
    requires a.extraction.Extracted? && QuoteUsable(a)
  {
    if a.freshQuote.Thrown? then Bridge(a.extraction.amount)
    else match a.freshQuote.value.value case Some(n) => Bridge(n) case None => EmptyCall
  }

  function Output(a: Answers): int { if a.extraction.Extracted? then a.extraction.amount else 0 }

  /** The sends of a run that passes every gate before the first of them. */
  function Sends(o: Options, a: Answers): seq<Broadcast> {
    (if o.simulateUncertainty then [] else [Swap])
    + (if ApprovalSent(o, a) then [Approve(a.extraction.amount)] else [])
    + (if BridgeSent(o, a) then [DepositCall(a)] else [])
  }

  function TraceOf(host: Host, planHash: RunnerPlan -> string, o: Options, a: Answers): seq<Broadcast> {
    if Cleared(host, planHash, o, a) then Sends(o, a) else []
  }

  /** computeExecutionPlanHash as a function value. */
  function PlanHash(host: Host): RunnerPlan -> string { (p: RunnerPlan) => Fingerprint(host, p) }

  /** A send that failed: uncertain if the message is ambiguous, else the outer catch names it. */
  function AfterFailedSend(host: Host, message: Option<string>, sourceTxHash: string): Status {
    if Ambiguous(host, message) then BROADCAST_UNCERTAIN
    else if sourceTxHash != "" then BLOCKED_DURING_EXECUTION else BLOCKED_PRE_BROADCAST
  }

  function Caught(sourceTxHash: string): Status {
    if sourceTxHash != "" then BLOCKED_DURING_EXECUTION else BLOCKED_PRE_BROADCAST
  }

  // ----- The same run as rows of gates, on the bare answers -----

  /** Who signs: nobody, the injected wallet, or the environment's key. */
  function Signer(o: Options, a: Answers): Option<string> {
    match (o.skipSignerInit, o.injectedWallet)
    case (true, _) => None
    case (false, Some(wallet)) => Some(wallet)
    case (false, None) => a.keyAddress
  }

  function Payer(o: Options, a: Answers): string { match Signer(o, a) case Some(x) => x case None => OPERATOR }

  function Payee(o: Options, a: Answers): string { GivenOr(o.expectedRecipient, Payer(o, a)) }

  /** The operator's word, from either of two variables. */
  function Word(first: Option<string>, second: Option<string>): Option<string> {
    if first != None && first != Some("") then first else second
  }

  function Held(a: Answers): int { match a.balance case Returned(n) => n case Thrown => 0 }

  function Fee(a: Answers): int { match a.maxFee case Returned(n) => if n == 0 then 390_000_000_000 else n case Thrown => 0 }

  function NetworkRow(a: Answers): seq<Gate<Status>> {
    [ Gate(a.sourceNetwork != Thrown, BLOCKED_PRE_BROADCAST_VALIDATION),
      Gate(a.sourceNetwork == Returned(137), BLOCKED_NETWORK_SAFETY),
      Gate(a.destNetwork != Thrown, BLOCKED_PRE_BROADCAST_VALIDATION),
      Gate(a.destNetwork == Returned(42161), BLOCKED_NETWORK_SAFETY),
      Gate(a.block, BLOCKED_PRE_BROADCAST_VALIDATION),
      Gate(a.code != Thrown, Rejected),
      Gate(a.code == Returned(true), BLOCKED_PRE_BROADCAST_VALIDATION) ]
  }

  /** A key from the environment may only be the operator's own, trading for the operator. */
  function AddressRow(host: Host, o: Options, a: Answers): seq<Gate<Status>> {
    var ownKey := Signer(o, a) != None && o.injectedWallet == None;
    [ Gate(Signer(o, a) != None ==> host.lower(Payer(o, a)) != host.lower(COMPROMISED), BLOCKED_SIGNER_ADDRESS_MISMATCH),
      Gate(a.validAddress(Payer(o, a)), Rejected),
      Gate(a.validAddress(Payee(o, a)), Rejected),
      Gate(a.maxFee != Thrown, Rejected),
      Gate(ownKey ==> host.lower(Payer(o, a)) == host.lower(OPERATOR), BLOCKED_SIGNER_ADDRESS_MISMATCH),
      Gate(ownKey ==> host.lower(Payee(o, a)) == host.lower(OPERATOR), BLOCKED_RECIPIENT_ADDRESS_MISMATCH),
      Gate(host.lower(Payee(o, a)) == host.lower(Payer(o, a)), BLOCKED_RECIPIENT_ADDRESS_MISMATCH) ]
  }

  function LiveRow(planHash: RunnerPlan -> string, o: Options, a: Answers): seq<Gate<Status>> {
    [ Gate(a.planBuilt, Rejected),
      Gate(o.mode == LIVE_ONCHAIN, READY_FOR_CONTROLLED_BRIDGE_BROADCAST),
      Gate(Signer(o, a) != None, BLOCKED_NO_FUNDED_KEY),
      Gate(Held(a) >= o.amountInWei + 378000 * Fee(a), BLOCKED_INSUFFICIENT_FUNDS),
      Gate(Word(o.mainnetConfirm, o.liveConfirm) == Some("CONFIRM_POLYGON_ARBITRUM_MAINNET"), BLOCKED_OPERATOR_CONFIRMATION),
      Gate(!o.stopAtGate, READY_FOR_LIVE_BROADCAST),
      Gate(!o.mutatePlan || planHash(Retargeted(BuiltPlan(o, a))) == planHash(BuiltPlan(o, a)), BLOCKED_PLAN_MUTATION),
      Gate(a.swapCall, BLOCKED_SOURCE_PREFLIGHT) ]
  }

  /** Everything before the first send. */
  function FirstRow(host: Host, planHash: RunnerPlan -> string, o: Options, a: Answers): seq<Gate<Status>> {
    NetworkRow(a) + (AddressRow(host, o, a) + LiveRow(planHash, o, a))
  }

  function FailedSend(host: Host, send: Send, sourceTxHash: string): Status {
    match send case SendFailed(message) => AfterFailedSend(host, message, sourceTxHash) case Sent(_) => Rejected
  }

  function SwapHash(a: Answers): string { match a.swapSend case Sent(hash) => hash case SendFailed(_) => "" }

  function SwapRow(host: Host, o: Options, a: Answers): seq<Gate<Status>> {
    [ Gate(!o.simulateUncertainty, AfterFailedSend(host, Some("ETIMEDOUT: Connection timeout during transaction broadcast"), "")),
      Gate(a.swapSend.Sent?, FailedSend(host, a.swapSend, "")),
      Gate(a.swapReceipt != Thrown, Caught(SwapHash(a))),
      Gate(a.swapReceipt == Returned(true) && !o.simulateSwapRevert, FAILED_WITH_VERIFIED_REVERT),
      Gate(o.simulateConflict ==> a.conflictProbe != Conflict, STATUS_CONFLICT),
      Gate(o.simulateConflict ==> a.conflictProbe != Unverified, BLOCKED_ACTUAL_OUTPUT_UNVERIFIED),
      Gate(a.extraction != Conflict, STATUS_CONFLICT),
      Gate(a.extraction != Unverified, BLOCKED_ACTUAL_OUTPUT_UNVERIFIED),
      Gate(Output(a) >= 500150, BLOCKED_ACROSS_MIN_DEPOSIT_AFTER_FRESH_QUOTE) ]
  }

  function BeforeBridge(o: Options, a: Answers): seq<Gate<Status>> {
    [ Gate(Word(o.mainnetBridgeConfirm, o.bridgeConfirm) == Some("CONFIRM_ACROSS_MAINNET"), BLOCKED_OPERATOR_CONFIRMATION),
      Gate(a.freshQuote != Returned(None), if a.simulates then BLOCKED_BRIDGE_PREFLIGHT else Caught(SwapHash(a))),
      Gate(a.bridgeCall, BLOCKED_BRIDGE_PREFLIGHT) ]
  }

  function AfterBridge(host: Host, a: Answers): seq<Gate<Status>> {
    [ Gate(a.bridgeSend.Sent?, FailedSend(host, a.bridgeSend, SwapHash(a))),
      Gate(a.bridgeReceipt != Thrown, Caught(SwapHash(a))),
      Gate(a.bridgeReceipt == Returned(true), FAILED_WITH_VERIFIED_REVERT) ]
  }

  /** An injected provider is not polled. Nothing comes after the last gate: the run has settled. */
  function SettleRow(o: Options, a: Answers): seq<Gate<Status>> {
    [ Gate(!o.simulateMissingReceipt, DESTINATION_STATUS_UNCERTAIN),
      Gate(!o.simulateDestinationRevert, DESTINATION_RECEIPT_REVERT),
      Gate(o.injectedProvider || !EndsAt(a.polls, RefundedOrExpired), BRIDGE_EXECUTION_FAILED),
      Gate(o.injectedProvider || exists i :: 0 <= i < |a.polls| && a.polls[i] != Pending, DESTINATION_STATUS_UNCERTAIN),
      Gate(o.injectedProvider || (a.fillReceipt != Thrown && a.fillReceipt != Returned(None)), DESTINATION_STATUS_UNCERTAIN),
      Gate(o.injectedProvider || a.fillReceipt == Returned(Some(true)), DESTINATION_RECEIPT_REVERT),
      Gate(a.metrics, Caught(SwapHash(a))),
      Gate(false, LIVE_MAINNET_EXECUTION_SETTLED) ]
  }

  function RestRow(host: Host, o: Options, a: Answers): seq<Gate<Status>> {
    (BeforeBridge(o, a) + AfterBridge(host, a)) + SettleRow(o, a)
  }

  /** Every gate of a run, in the order it comes to them. */
  function RunRow(host: Host, planHash: RunnerPlan -> string, o: Options, a: Answers): seq<Gate<Status>> {
    FirstRow(host, planHash, o, a) + (SwapRow(host, o, a) + RestRow(host, o, a))
  }

  /** What the deposit's send carries: the fresh quote's amount, nothing if the quote has no calldata, and
      the swap's output if the request threw. */
  function Carried(a: Answers): Broadcast {
    match a.freshQuote
    case Thrown => Bridge(Output(a))
    case Returned(Some(Some(n))) => Bridge(n)
    case Returned(_) => EmptyCall
  }

  /** The sends behind the first gates: the swap; the approval of the output, if the allowance is short, behind
      the settled swap alone; the deposit behind its own gates, whatever became of the approval. */
  predicate SendsThen(host: Host, o: Options, a: Answers, trace: seq<Broadcast>) {
    var settled := AllOpen(SwapRow(host, o, a));
    var short := match a.allowance case Returned(n) => n < Output(a) case Thrown => false;
    trace == (if o.simulateUncertainty then [] else [Swap])
             + (if settled && short then [Approve(Output(a))] else [])
             + (if settled && AllOpen(BeforeBridge(o, a)) then [Carried(a)] else [])
  }

  /** Nothing is sent unless every first gate is open. */
  predicate SendsBehindGates(host: Host, planHash: RunnerPlan -> string, o: Options, a: Answers, trace: seq<Broadcast>) {
    if AllOpen(FirstRow(host, planHash, o, a)) then SendsThen(host, o, a, trace) else trace == []
  }

  // ----- The runner, stage by stage -----

  method CheckNetworks(a: Answers) returns (stop: Option<Status>)
    ensures stop.None? <==> NetworksRight(a)
    ensures stop == Verdict(NetworkRow(a))
  {
    ghost var row := NetworkRow(a);
    if a.sourceNetwork.Thrown? { StopsAt(row, 0); return Some(BLOCKED_PRE_BROADCAST_VALIDATION); }
    if a.sourceNetwork.value != 137 { StopsAt(row, 1); return Some(BLOCKED_NETWORK_SAFETY); }
    if a.destNetwork.Thrown? { StopsAt(row, 2); return Some(BLOCKED_PRE_BROADCAST_VALIDATION); }
    if a.destNetwork.value != 42161 { StopsAt(row, 3); return Some(BLOCKED_NETWORK_SAFETY); }
    if !a.block { StopsAt(row, 4); return Some(BLOCKED_PRE_BROADCAST_VALIDATION); }
    if a.code.Thrown? { StopsAt(row, 5); return Some(Rejected); }
    if !a.code.value { StopsAt(row, 6); return Some(BLOCKED_PRE_BROADCAST_VALIDATION); }
    PassesAll(row);
    stop := None;
  }

  method CheckAddresses(host: Host, o: Options, a: Answers) returns (stop: Option<Status>)
    ensures stop.None? <==> AddressesRight(host, o, a) && a.maxFee.Returned?
    ensures stop == Verdict(AddressRow(host, o, a))
  {
    ghost var row := AddressRow(host, o, a);
    var wallet := Wallet(o, a);
    if wallet.Some? && host.lower(wallet.value) == host.lower(COMPROMISED) { StopsAt(row, 0); return Some(BLOCKED_SIGNER_ADDRESS_MISMATCH); }
    var user := if wallet.Some? then wallet.value else OPERATOR;
    if !a.validAddress(user) { StopsAt(row, 1); return Some(Rejected); }
    var recipient := if Truthy(o.expectedRecipient) then o.expectedRecipient.value else user;
    if !a.validAddress(recipient) { StopsAt(row, 2); return Some(Rejected); }
    if a.maxFee.Thrown? { StopsAt(row, 3); return Some(Rejected); }
    if wallet.Some? && o.injectedWallet.None? {
      if host.lower(user) != host.lower(OPERATOR) { StopsAt(row, 4); return Some(BLOCKED_SIGNER_ADDRESS_MISMATCH); }
      if host.lower(recipient) != host.lower(OPERATOR) { StopsAt(row, 5); return Some(BLOCKED_RECIPIENT_ADDRESS_MISMATCH); }
    }
    if host.lower(recipient) != host.lower(user) { StopsAt(row, 6); return Some(BLOCKED_RECIPIENT_ADDRESS_MISMATCH); }
    PassesAll(row);
    stop := None;
  }

  /** From the built plan to the swap's simulation. */
  method LiveGates(host: Host, planHash: RunnerPlan -> string, o: Options, a: Answers) returns (stop: Option<Status>)
    requires a.maxFee.Returned?
    ensures stop.None? <==>
      && a.planBuilt && o.mode == LIVE_ONCHAIN && Wallet(o, a).Some? && Funded(o, a) && SourceConfirmed(o) && !o.stopAtGate
      && Unchanged(planHash, o, a) && a.swapCall
    ensures stop == Verdict(LiveRow(planHash, o, a))
    ensures stop == Some(BLOCKED_PLAN_MUTATION) ==> o.mutatePlan
  {
    ghost var row := LiveRow(planHash, o, a);
    if !a.planBuilt { StopsAt(row, 0); return Some(Rejected); }
    if o.mode != LIVE_ONCHAIN { StopsAt(row, 1); return Some(READY_FOR_CONTROLLED_BRIDGE_BROADCAST); }
    if Wallet(o, a).None? { StopsAt(row, 2); return Some(BLOCKED_NO_FUNDED_KEY); }
    var required := o.amountInWei + 378000 * MaxFee(a);
    if Balance(a) < required { StopsAt(row, 3); return Some(BLOCKED_INSUFFICIENT_FUNDS); }
    if Or(o.mainnetConfirm, o.liveConfirm) != Some(SOURCE_TOKEN) { StopsAt(row, 4); return Some(BLOCKED_OPERATOR_CONFIRMATION); }
    if o.stopAtGate { StopsAt(row, 5); return Some(READY_FOR_LIVE_BROADCAST); }
    var plan := BuiltPlan(o, a);
    var initialPlanHash := planHash(plan);
    if o.mutatePlan { plan := Retargeted(plan); }
    if planHash(plan) != initialPlanHash { StopsAt(row, 6); return Some(BLOCKED_PLAN_MUTATION); }
    if !a.swapCall { StopsAt(row, 7); return Some(BLOCKED_SOURCE_PREFLIGHT); }
    PassesAll(row);
    stop := None;
  }

  method SwapStage(host: Host, o: Options, a: Answers) returns (stop: Option<Status>, trace: seq<Broadcast>)
    ensures stop.None? <==> !o.simulateUncertainty && SwapSettled(o, a)
    ensures trace == if o.simulateUncertainty then [] else [Swap]
    ensures stop == Verdict(SwapRow(host, o, a))
    ensures stop.Some? ==> stop.value != LIVE_MAINNET_EXECUTION_SETTLED && stop.value != BLOCKED_PLAN_MUTATION
    ensures stop == Some(BROADCAST_UNCERTAIN) <==>
      if o.simulateUncertainty then Ambiguous(host, Some(SIMULATED_TIMEOUT)) else a.swapSend.SendFailed? && Ambiguous(host, a.swapSend.message)
    ensures stop == Some(BLOCKED_ACROSS_MIN_DEPOSIT_AFTER_FRESH_QUOTE) ==> a.extraction.Extracted? && a.extraction.amount < ACROSS_MINIMUM
  {
    ghost var row := SwapRow(host, o, a);
    trace := [];
    var send := SendFailed(Some(SIMULATED_TIMEOUT));
    if !o.simulateUncertainty {
      trace := [Swap];
      send := a.swapSend;
    }
    if send.SendFailed? {
      StopsAt(row, if o.simulateUncertainty then 0 else 1);
      return Some(AfterFailedSend(host, send.message, "")), trace;
    }
    if a.swapReceipt.Thrown? { StopsAt(row, 2); return Some(Caught(send.hash)), trace; }
    if !a.swapReceipt.value || o.simulateSwapRevert { StopsAt(row, 3); return Some(FAILED_WITH_VERIFIED_REVERT), trace; }
    if o.simulateConflict && !a.conflictProbe.Extracted? {
      StopsAt(row, if a.conflictProbe.Conflict? then 4 else 5);
      return Some(if a.conflictProbe.Conflict? then STATUS_CONFLICT else BLOCKED_ACTUAL_OUTPUT_UNVERIFIED), trace;
    }
    if !a.extraction.Extracted? {
      StopsAt(row, if a.extraction.Conflict? then 6 else 7);
      return Some(if a.extraction.Conflict? then STATUS_CONFLICT else BLOCKED_ACTUAL_OUTPUT_UNVERIFIED), trace;
    }
    if a.extraction.amount < ACROSS_MINIMUM { StopsAt(row, 8); return Some(BLOCKED_ACROSS_MIN_DEPOSIT_AFTER_FRESH_QUOTE), trace; }
    PassesAll(row);
    stop := None;
  }

  /** The approval of the exact output, when the allowance is short. A failure, even an ambiguous one,
      is only warned about. */
  method ApprovalStage(a: Answers) returns (approvalTxHash: Option<string>, sent: seq<Broadcast>)
    requires a.extraction.Extracted?
    ensures sent == if AllowanceShort(a) then [Approve(a.extraction.amount)] else []
    ensures approvalTxHash == if AllowanceShort(a) then HashOf(a.approveSend) else None
  {
    var output := a.extraction.amount;
    var allowance := if a.allowance.Returned? then a.allowance.value else output;
    approvalTxHash, sent := None, [];
    if allowance < output {
      sent := [Approve(output)];
      if a.approveSend.Sent? { approvalTxHash := Some(a.approveSend.hash); }
    }
  }

  /** Second confirmation and deposit. Without a quote the deposit's calldata cannot be read: the
      simulation fails on that, or, on a provider that cannot simulate, the send itself. */
  method BridgeStage(host: Host, o: Options, a: Answers) returns (stop: Option<Status>, sent: seq<Broadcast>)
    requires SwapSettled(o, a)
    ensures sent == if BridgeConfirmed(o) && QuoteUsable(a) && a.bridgeCall then [DepositCall(a)] else []
    ensures stop.None? <==> sent != [] && a.bridgeSend.Sent? && a.bridgeReceipt == Returned(true)
    ensures stop.Some? ==> stop.value in {BLOCKED_OPERATOR_CONFIRMATION, BLOCKED_BRIDGE_PREFLIGHT, BROADCAST_UNCERTAIN,
      BLOCKED_DURING_EXECUTION, BLOCKED_PRE_BROADCAST, FAILED_WITH_VERIFIED_REVERT}
    ensures stop == Verdict(BeforeBridge(o, a) + AfterBridge(host, a))
    ensures sent == if AllOpen(BeforeBridge(o, a)) then [Carried(a)] else []
    ensures stop == Some(BLOCKED_OPERATOR_CONFIRMATION) <==> !BridgeConfirmed(o)
    ensures stop == Some(BLOCKED_BRIDGE_PREFLIGHT) ==> sent == []
    ensures stop == Some(BROADCAST_UNCERTAIN) <==> sent != [] && a.bridgeSend.SendFailed? && Ambiguous(host, a.bridgeSend.message)
    ensures stop == Some(FAILED_WITH_VERIFIED_REVERT) <==> sent != [] && a.bridgeSend.Sent? && a.bridgeReceipt == Returned(false)
  {
    sent := [];
    ghost var row := BeforeBridge(o, a) + AfterBridge(host, a);
    if Or(o.mainnetBridgeConfirm, o.bridgeConfirm) != Some(BRIDGE_TOKEN) { StopsAt(row, 0); return Some(BLOCKED_OPERATOR_CONFIRMATION), sent; }
    if a.freshQuote.Returned? && a.freshQuote.value.None? {
      StopsAt(row, 1);
      return Some(if a.simulates then BLOCKED_BRIDGE_PREFLIGHT else Caught(a.swapSend.hash)), sent;
    }
    if !a.bridgeCall { StopsAt(row, 2); return Some(BLOCKED_BRIDGE_PREFLIGHT), sent; }
    if a.freshQuote.Thrown? {
      sent := [Bridge(a.extraction.amount)];
    } else {
      sent := [if a.freshQuote.value.value.Some? then Bridge(a.freshQuote.value.value.value) else EmptyCall];
    }
    if a.bridgeSend.SendFailed? { StopsAt(row, 3); return Some(AfterFailedSend(host, a.bridgeSend.message, a.swapSend.hash)), sent; }
    if a.bridgeReceipt.Thrown? { StopsAt(row, 4); return Some(Caught(a.swapSend.hash)), sent; }
    if !a.bridgeReceipt.value { StopsAt(row, 5); return Some(FAILED_WITH_VERIFIED_REVERT), sent; }
    PassesAll(row);
    stop := None;
  }

  /** p is the first poll that is not pending. */
  predicate EndsAt(polls: seq<Poll>, p: Poll) {
    exists i :: 0 <= i < |polls| && polls[i] == p && forall j :: 0 <= j < i ==> polls[j].Pending?
  }

  datatype PollResult = FillFound(fill: string) | Refused | NoFill

  /** The polling loop ends at the first fill, refund or expiry. */
  method PollForFill(polls: seq<Poll>) returns (r: PollResult)
    ensures r.NoFill? <==> forall i :: 0 <= i < |polls| ==> polls[i].Pending?
    ensures !r.NoFill? ==> EndsAt(polls, if r.FillFound? then Filled(r.fill) else RefundedOrExpired)
  {
    for i := 0 to |polls|
      invariant forall j :: 0 <= j < i ==> polls[j].Pending?
    {
      match polls[i]
      case Filled(fill) => return FillFound(fill);
      case RefundedOrExpired => return Refused;
      case Pending =>
    }
    r := NoFill;
  }

  /** The first poll that is not pending is a fill. */
  predicate FilledFirst(polls: seq<Poll>) {
    exists i :: 0 <= i < |polls| && polls[i].Filled? && forall j :: 0 <= j < i ==> polls[j].Pending?
  }

  predicate Delivered(o: Options, a: Answers) {
    && !o.simulateMissingReceipt && !o.simulateDestinationRevert && a.metrics
    && (!o.injectedProvider ==> FilledFirst(a.polls) && a.fillReceipt == Returned(Some(true)))
  }

  /** Settlement, and which of the approval's and the deposit's hashes its result names. */
  method Settle(o: Options, a: Answers) returns (status: Status, namesApproval: bool, namesBridge: bool)
    requires a.swapSend.Sent?
    ensures status == LIVE_MAINNET_EXECUTION_SETTLED <==> Delivered(o, a)
    ensures status in {LIVE_MAINNET_EXECUTION_SETTLED, DESTINATION_STATUS_UNCERTAIN, DESTINATION_RECEIPT_REVERT, BRIDGE_EXECUTION_FAILED,
      BLOCKED_DURING_EXECUTION, BLOCKED_PRE_BROADCAST}
    ensures !namesBridge <==> status == BLOCKED_DURING_EXECUTION || status == BLOCKED_PRE_BROADCAST
    ensures namesApproval ==> status == LIVE_MAINNET_EXECUTION_SETTLED || status == DESTINATION_STATUS_UNCERTAIN
    ensures status == LIVE_MAINNET_EXECUTION_SETTLED ==> namesApproval
    ensures Some(status) == Verdict(SettleRow(o, a))
  {
    ghost var row := SettleRow(o, a);
    if o.simulateMissingReceipt { StopsAt(row, 0); return DESTINATION_STATUS_UNCERTAIN, true, true; }
    if o.simulateDestinationRevert { StopsAt(row, 1); return DESTINATION_RECEIPT_REVERT, false, true; }
    if !o.injectedProvider {
      var poll := PollForFill(a.polls);
      if poll.Refused? { StopsAt(row, 2); return BRIDGE_EXECUTION_FAILED, false, true; }
      if poll.NoFill? { StopsAt(row, 3); return DESTINATION_STATUS_UNCERTAIN, true, true; }
      if a.fillReceipt.Thrown? || a.fillReceipt.value.None? { StopsAt(row, 4); return DESTINATION_STATUS_UNCERTAIN, false, true; }
      if !a.fillReceipt.value.value { StopsAt(row, 5); return DESTINATION_RECEIPT_REVERT, false, true; }
    }
    if !a.metrics { StopsAt(row, 6); return Caught(a.swapSend.hash), false, false; }
    StopsAt(row, 7);
    status, namesApproval, namesBridge := LIVE_MAINNET_EXECUTION_SETTLED, true, true;
  }

  lemma NetworkAnswers(a: Answers)
    requires Verdict(NetworkRow(a)).Some?
    ensures Verdict(NetworkRow(a)).value in {BLOCKED_PRE_BROADCAST_VALIDATION, BLOCKED_NETWORK_SAFETY, Rejected}
  {
    var i := FirstClosed(NetworkRow(a));
  }

  lemma AddressAnswers(host: Host, o: Options, a: Answers)
    requires Verdict(AddressRow(host, o, a)).Some?
    ensures Verdict(AddressRow(host, o, a)).value in {BLOCKED_SIGNER_ADDRESS_MISMATCH, BLOCKED_RECIPIENT_ADDRESS_MISMATCH, Rejected}
  {
    var i := FirstClosed(AddressRow(host, o, a));
  }

  lemma LiveAnswers(planHash: RunnerPlan -> string, o: Options, a: Answers)
    requires Verdict(LiveRow(planHash, o, a)).Some?
    ensures Verdict(LiveRow(planHash, o, a)).value in {Rejected, READY_FOR_CONTROLLED_BRIDGE_BROADCAST, BLOCKED_NO_FUNDED_KEY,
              BLOCKED_INSUFFICIENT_FUNDS, BLOCKED_OPERATOR_CONFIRMATION, READY_FOR_LIVE_BROADCAST, BLOCKED_PLAN_MUTATION, BLOCKED_SOURCE_PREFLIGHT}
  {
    var i := FirstClosed(LiveRow(planHash, o, a));
  }

  /** Every gate before the first send. */
  method Gates(host: Host, planHash: RunnerPlan -> string, o: Options, a: Answers) returns (stop: Option<Status>)
    ensures stop.None? <==> Cleared(host, planHash, o, a)
    ensures stop.Some? ==> stop.value !in {BROADCAST_UNCERTAIN, LIVE_MAINNET_EXECUTION_SETTLED, BLOCKED_ACROSS_MIN_DEPOSIT_AFTER_FRESH_QUOTE}
    ensures stop == Some(BLOCKED_PLAN_MUTATION) ==> o.mutatePlan
    ensures stop == Verdict(FirstRow(host, planHash, o, a))
  {
    InTurn(NetworkRow(a), AddressRow(host, o, a) + LiveRow(planHash, o, a));
    InTurn(AddressRow(host, o, a), LiveRow(planHash, o, a));
    stop := CheckNetworks(a);
    if stop.Some? { NetworkAnswers(a); return; }
    stop := CheckAddresses(host, o, a);
    if stop.Some? { AddressAnswers(host, o, a); return; }
    stop := LiveGates(host, planHash, o, a);
    if stop.Some? { LiveAnswers(planHash, o, a); }
  }

  /** The first send needs both networks, a signer that is not the compromised one, the amount and its fees,
      a simulated swap, and the exact source token. An approval is guarded by the swap's receipt only; a
      bridge also by the exact bridge token. */
  predicate Gated(host: Host, o: Options, a: Answers, trace: seq<Broadcast>) {
    && (trace != [] ==> o.mode == LIVE_ONCHAIN && Or(o.mainnetConfirm, o.liveConfirm) == Some(SOURCE_TOKEN))
    && (trace != [] ==> a.sourceNetwork == Returned(137) && a.destNetwork == Returned(42161) && a.block && a.code == Returned(true))
    && (trace != [] ==> Signer(o, a).Some? && host.lower(Signer(o, a).value) != host.lower(COMPROMISED)
                        && o.amountInWei + 378000 * Fee(a) <= Held(a))
    && (trace != [] ==> a.planBuilt && a.swapCall && !o.stopAtGate && !o.simulateUncertainty)
    && (|trace| > 1 ==> a.swapSend.Sent? && a.swapReceipt == Returned(true) && Output(a) >= ACROSS_MINIMUM)
    && (HasBridge(trace) ==> Or(o.mainnetBridgeConfirm, o.bridgeConfirm) == Some(BRIDGE_TOKEN))
  }

  lemma TraceGated(host: Host, planHash: RunnerPlan -> string, o: Options, a: Answers)
    ensures var trace := TraceOf(host, planHash, o, a);
            && Allowed(trace, Output(a)) && Gated(host, o, a, trace) && (o.mode != LIVE_ONCHAIN ==> trace == [])
            && (HasBridge(trace) ==> a.extraction.Extracted? && QuoteUsable(a) && Last(trace) == DepositCall(a))
            && (a.swapSend.SendFailed? ==> |trace| <= 1)
  {
  }

  /** The uncertain send, a swap or a deposit, is the last one made. */
  predicate UncertainAtTheEnd(host: Host, a: Answers, trace: seq<Broadcast>) {
    || (trace == [Swap] && a.swapSend.SendFailed? && Ambiguous(host, a.swapSend.message))
    || (HasBridge(trace) && a.bridgeSend.SendFailed? && Ambiguous(host, a.bridgeSend.message))
  }

  /** The hashes a result names are those of its sends. The swap's is named whenever its send returned
      one; the deposit's too, unless the runner's outer catch answers; the approval's on success. */
  predicate Reported(o: Options, a: Answers, r: Outcome) {
    && r.sourceTxHash == (if r.trace != [] then HashOf(a.swapSend) else None)
    && (r.approvalTxHash.Some? ==> HasApproval(r.trace) && r.approvalTxHash == HashOf(a.approveSend))
    && (r.bridgeTxHash.Some? ==> HasBridge(r.trace) && r.bridgeTxHash == HashOf(a.bridgeSend))
    && (HasBridge(r.trace) && r.status !in {BLOCKED_DURING_EXECUTION, BLOCKED_PRE_BROADCAST} ==> r.bridgeTxHash == HashOf(a.bridgeSend))
    && (HasApproval(r.trace) && r.status == LIVE_MAINNET_EXECUTION_SETTLED ==> r.approvalTxHash == HashOf(a.approveSend))
  }

  /** The whole run: what it sends, exactly, and what every send was guarded by. planHash is
      computeExecutionPlanHash (see MutationIsCaught). */
  method Run(host: Host, planHash: RunnerPlan -> string, o: Options, a: Answers) returns (r: Outcome)
    ensures r.trace == TraceOf(host, planHash, o, a)
    ensures Some(r.status) == Verdict(RunRow(host, planHash, o, a)) && SendsBehindGates(host, planHash, o, a, r.trace)
    ensures Allowed(r.trace, Output(a)) && Gated(host, o, a, r.trace)
    ensures HasBridge(r.trace) ==> a.extraction.Extracted? && QuoteUsable(a) && Last(r.trace) == DepositCall(a)
    ensures Reported(o, a, r)
    ensures o.mode != LIVE_ONCHAIN ==> r.trace == []
    ensures a.swapSend.SendFailed? ==> |r.trace| <= 1
    ensures r.status == BROADCAST_UNCERTAIN && !o.simulateUncertainty ==> UncertainAtTheEnd(host, a, r.trace)
    ensures r.status == LIVE_MAINNET_EXECUTION_SETTLED <==>
      Cleared(host, planHash, o, a) && BridgeSent(o, a) && a.bridgeSend.Sent? && a.bridgeReceipt == Returned(true) && Delivered(o, a)
    ensures r.status == BLOCKED_ACROSS_MIN_DEPOSIT_AFTER_FRESH_QUOTE && MinimumOutput(o.amountInWei) <= Output(a) ==>
      o.amountInWei * 103577 < 502664 * ETHER
    ensures r.status == BLOCKED_PLAN_MUTATION ==> o.mutatePlan && r.trace == []
  {
    InTurn(FirstRow(host, planHash, o, a), SwapRow(host, o, a) + RestRow(host, o, a));
    PassesAll(FirstRow(host, planHash, o, a));
    var stop := Gates(host, planHash, o, a);
    if stop.Some? { return Outcome(stop.value, None, None, None, []); }
    r := SendAll(host, o, a);
    TraceGated(host, planHash, o, a);
    MinimumReachesAcross(o.amountInWei);
  }

  /** The part of the run that may broadcast. */
  method SendAll(host: Host, o: Options, a: Answers) returns (r: Outcome)
    ensures r.trace == Sends(o, a) && SendsThen(host, o, a, r.trace)
    ensures Some(r.status) == Verdict(SwapRow(host, o, a) + RestRow(host, o, a))
    ensures r.status == BROADCAST_UNCERTAIN && !o.simulateUncertainty ==> UncertainAtTheEnd(host, a, r.trace)
    ensures r.status == LIVE_MAINNET_EXECUTION_SETTLED <==>
      BridgeSent(o, a) && a.bridgeSend.Sent? && a.bridgeReceipt == Returned(true) && Delivered(o, a)
    ensures r.status == BLOCKED_ACROSS_MIN_DEPOSIT_AFTER_FRESH_QUOTE ==> a.extraction.Extracted? && Output(a) < ACROSS_MINIMUM
    ensures r.status != BLOCKED_PLAN_MUTATION
    ensures Reported(o, a, r)
  {
    InTurn(SwapRow(host, o, a), RestRow(host, o, a));
    PassesAll(SwapRow(host, o, a));
    var stop, trace := SwapStage(host, o, a);
    if stop.Some? {
      r := Outcome(stop.value, if trace != [] then HashOf(a.swapSend) else None, None, None, trace);
    } else {
      r := SendRest(host, o, a);
    }
  }

  /** From the settled swap on. */
  method SendRest(host: Host, o: Options, a: Answers) returns (r: Outcome)
    requires !o.simulateUncertainty && SwapSettled(o, a) && AllOpen(SwapRow(host, o, a))
    ensures r.trace == Sends(o, a) && Reported(o, a, r) && SendsThen(host, o, a, r.trace)
    ensures Some(r.status) == Verdict(RestRow(host, o, a))
    ensures r.status == BROADCAST_UNCERTAIN ==> UncertainAtTheEnd(host, a, r.trace)
    ensures r.status == LIVE_MAINNET_EXECUTION_SETTLED <==>
      BridgeSent(o, a) && a.bridgeSend.Sent? && a.bridgeReceipt == Returned(true) && Delivered(o, a)
    ensures r.status != BLOCKED_ACROSS_MIN_DEPOSIT_AFTER_FRESH_QUOTE && r.status != BLOCKED_PLAN_MUTATION
  {
    InTurn(BeforeBridge(o, a) + AfterBridge(host, a), SettleRow(o, a));
    var approvalTxHash, approved := ApprovalStage(a);
    var stop, sent := BridgeStage(host, o, a);
    var trace := [Swap] + approved + sent;
    RestTrace(host, o, a, approved, sent);
    if stop.Some? {
      // Of these exits only the deposit's verified revert names the deposit.
      return Outcome(stop.value, HashOf(a.swapSend), None, if stop.value == FAILED_WITH_VERIFIED_REVERT then HashOf(a.bridgeSend) else None, trace);
    }
    var status, namesApproval, namesBridge := Settle(o, a);
    r := Outcome(status, HashOf(a.swapSend), if namesApproval then approvalTxHash else None,
                 if namesBridge then HashOf(a.bridgeSend) else None, trace);
  }

  /** The trace from the settled swap on, and where its sends stand in it. */
  lemma RestTrace(host: Host, o: Options, a: Answers, approved: seq<Broadcast>, sent: seq<Broadcast>)
    requires !o.simulateUncertainty && SwapSettled(o, a) && AllOpen(SwapRow(host, o, a))
    requires approved == if AllowanceShort(a) then [Approve(a.extraction.amount)] else []
    requires sent == if BridgeConfirmed(o) && QuoteUsable(a) && a.bridgeCall then [DepositCall(a)] else []
    requires sent == if AllOpen(BeforeBridge(o, a)) then [Carried(a)] else []
    ensures var trace := [Swap] + approved + sent;
            && trace == Sends(o, a) && SendsThen(host, o, a, trace)
            && (HasBridge(trace) <==> sent != []) && (HasApproval(trace) <==> approved != [])
  {
  }

  /** The run with the runner's own plan hash: a plan retargeted before the broadcast sends nothing. */
  method RunFingerprinted(host: Host, o: Options, a: Answers) returns (r: Outcome)
    ensures r.trace == TraceOf(host, PlanHash(host), o, a)
    ensures o.mutatePlan && host.CollisionFree() && host.lower(ROUTER) != host.lower(DEAD_TARGET) ==> r.trace == []
  {
    r := Run(host, PlanHash(host), o, a);
    if o.mutatePlan && host.CollisionFree() && host.lower(ROUTER) != host.lower(DEAD_TARGET) {
      MutationIsCaught(host, PlanHash(host), o, a);
    }
  }

  // ----- What the gates do not look at -----

  /** Nothing compares the fresh quote with the swap's output: a run that deposits would send whatever
      else the quote named instead, be it another amount or no calldata at all. */
  lemma QuoteDecidesDeposit(host: Host, planHash: RunnerPlan -> string, o: Options, a: Answers, quoted: Option<int>)
    requires HasBridge(TraceOf(host, planHash, o, a))
    ensures var trace := TraceOf(host, planHash, o, a);
            TraceOf(host, planHash, o, a.(freshQuote := Returned(Some(quoted)))) ==
              trace[..|trace|-1] + [if quoted.Some? then Bridge(quoted.value) else EmptyCall]
  {
    var b := a.(freshQuote := Returned(Some(quoted)));
    assert Cleared(host, planHash, o, b) == Cleared(host, planHash, o, a);
    assert SwapSettled(o, b) == SwapSettled(o, a);
  }

  /** With the repository's own provider it is the output after all, in every run: the runner names the
      chains by number, on which the provider's first test throws, and then makes the call up itself. */
  lemma OwnProviderDepositsOutput(host: Host, planHash: RunnerPlan -> string, o: Options, a: Answers, beyond: Answer<Option<Option<int>>>)
    requires a.freshQuote == AcrossRequest.Quote(host, AcrossRequest.Number(137), AcrossRequest.Number(42161), beyond)
    ensures a.freshQuote == Thrown
    ensures var trace := TraceOf(host, planHash, o, a);
            Allowed(trace, Output(a)) && (HasBridge(trace) ==> Last(trace) == Bridge(Output(a)))
  {
    assert a.freshQuote.Thrown?;
  }

  /** Nor does anything wait for the approval: whatever becomes of it, what is sent is the same, the
      approval goes out before the second confirmation is looked at, and stays when that is refused. */
  lemma ApprovalUnguarded(host: Host, planHash: RunnerPlan -> string, o: Options, a: Answers, fate: Send, mined: bool)
    requires Cleared(host, planHash, o, a) && !o.simulateUncertainty && SwapSettled(o, a) && AllowanceShort(a)
    ensures TraceOf(host, planHash, o, a.(approveSend := fate, approveMined := mined)) == TraceOf(host, planHash, o, a)
    ensures TraceOf(host, planHash, o, a)[..2] == [Swap, Approve(Output(a))]
    ensures !BridgeConfirmed(o) ==> TraceOf(host, planHash, o, a) == [Swap, Approve(Output(a))]
  {
    var b := a.(approveSend := fate, approveMined := mined);
    assert Cleared(host, planHash, o, b) == Cleared(host, planHash, o, a);
  }
}
