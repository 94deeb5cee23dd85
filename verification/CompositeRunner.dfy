/** runControlledCompositeTestnetExecution: a swap and a bridge deposit behind two operator
    confirmations. The world is a record of arbitrary answers, one per call the runner may make. */
module CompositeRunner {
  import opened Js
  import opened Environment
  import opened Broadcasts
  import opened GateRows

  const SOURCE_TOKEN := "CONFIRM_TESTNET_EXECUTION"
  const BRIDGE_TOKEN := "CONFIRM_BRIDGE_TESTNET"
  const ALLOWED_SOURCE := 11155111
  const ALLOWED_DESTINATION := 421614

  /** The chains with a known Across pool; asking for the pool of any other throws. */
  const SPOKE_POOL_CHAINS := {1, 10, 137, 8453, 42161, 59144, 534352, 81457, 34443, 324, 11155111, 421614, 84532, 11155420}

  /** USDC on the two testnets, in lower case. */
  const INPUT_TOKEN := "0x1c7d4b196cb0c7b01d743fbc6116a902379c7238"
  const OUTPUT_TOKEN := "0x75faf114eafb1bdbe2f0316df893fd58ce46aa4d"

  /** Any text the environment names as a mode other than the three known ones is Other. It goes into
      every audit record, and one that reads like a secret ("mnemonic", say) is refused there. */
  datatype Mode = READ_ONLY | PREFLIGHT_ONLY | LIVE_TESTNET | Other(loggable: bool)

  datatype Route = SEPOLIA_TO_ARB_SEPOLIA | POLYGON_AMOY_TO_SEPOLIA | MAINNET_ETH_TO_ARB

  datatype Options = Options(
    mode: Mode, route: Route, sourceChainId: Option<int>, destChainId: Option<int>,
    confirmSource: Option<string>, confirmBridge: Option<string>,
    envConfirmSource: Option<string>, envConfirmBridge: Option<string>)

  /** What the deposit's calldata decodes to. */
  datatype Deposit = Deposit(depositor: string, recipient: string, inputToken: string, outputToken: string, amount: int, chainId: int)

  datatype Extraction = Extracted(amount: int) | Conflict | Unverified

  /** TESTNET_PRIVATE_KEY: absent or blank, no private key, or the key of an address (in lower case). */
  datatype Key = NoKey | BadKey | KeyOf(address: string)

  /** The bridge quote of the plan: the provider's, or the one the runner makes up for want of it. */
  datatype InitialQuote = Live | Fallback

  /** The world's answers. A bool says the call succeeded; an Answer may also throw. */
  datatype Answers = Answers(
    // before any broadcast
    chainsKnown: bool, blockNumbers: bool, code: Answer<bool>, initialQuote: InitialQuote, planBuilt: bool,
    saved: Answer<bool>, key: Key, enough: bool, swapCall: Answer<bool>,
    // the swap
    swapSend: Answer<string>, swapReceipt: Answer<bool>, extraction: Extraction,
    // the bridge
    freshQuote: Answer<bool>, allowance: Answer<int>, approveCall: Answer<bool>, approveGas: bool,
    approveSend: Answer<string>, approveReceipt: Answer<bool>, decoded: Answer<Deposit>, bridgeCall: Answer<bool>,
    bridgeGas: bool, sendGas: bool, bridgeSend: Answer<string>, bridgeReceipt: Answer<bool>,
    // settlement: each poll tells the fill transaction, or nothing
    polls: seq<Option<string>>, fillReceipt: Answer<bool>, balance: bool)

  datatype Status =
    | LIVE_E2E_SUCCESS | READY_FOR_CONTROLLED_BRIDGE_BROADCAST | BLOCKED_NO_FUNDED_KEY
    | BLOCKED_INSUFFICIENT_NATIVE_BALANCE | BLOCKED_LIVE_COMPOSITE_ROUTE_UNAVAILABLE | BLOCKED_SOURCE_PREFLIGHT
    | BLOCKED_ACTUAL_OUTPUT_UNVERIFIED | BLOCKED_POST_SWAP_BRIDGE_QUOTE | BLOCKED_BRIDGE_PREFLIGHT
    | BLOCKED_OPERATOR_CONFIRMATION | BLOCKED_PRE_BROADCAST_VALIDATION | SOURCE_TRANSACTION_REVERT
    | BRIDGE_TRANSACTION_REVERT | BRIDGE_TRACKING_UNAVAILABLE | DESTINATION_RECEIPT_REVERT | STATUS_CONFLICT | FAILED
    | Rejected // the runner itself throws

  /** The result's hashes, with the sends that were made to get there. */
  datatype Outcome = Outcome(
    status: Status, sourceTxHash: Option<string>, approvalTxHash: Option<string>, bridgeTxHash: Option<string>,
    destinationTxHash: Option<string>, trace: seq<Broadcast>)

  function Stopped(status: Status): Outcome { Outcome(status, None, None, None, None, []) }

  // ----- What each stage needs, said once -----

  function SourceChain(o: Options): int {
    if o.sourceChainId.Some? && o.sourceChainId.value != 0 then o.sourceChainId.value
    else if o.route == MAINNET_ETH_TO_ARB then 1 else ALLOWED_SOURCE
  }

  function DestChain(o: Options): int {
    if o.destChainId.Some? && o.destChainId.value != 0 then o.destChainId.value
    else if o.route == MAINNET_ETH_TO_ARB then 42161 else ALLOWED_DESTINATION
  }

  predicate AllowListed(o: Options) {
    SourceChain(o) == ALLOWED_SOURCE && DestChain(o) == ALLOWED_DESTINATION && o.route != MAINNET_ETH_TO_ARB
  }

  predicate Yes(a: Answer<bool>) { a.Returned? && a.value }

  predicate Pooled(o: Options) { SourceChain(o) in SPOKE_POOL_CHAINS && DestChain(o) in SPOKE_POOL_CHAINS }

  predicate Loggable(o: Options) { o.mode != Other(false) }

  /** The diagnostics found a wallet with enough native balance. */
  predicate Funded(a: Answers) { a.key.KeyOf? && a.enough }

  predicate PlanReady(o: Options, a: Answers) {
    a.chainsKnown && a.blockNumbers && Pooled(o) && Yes(a.code) && a.planBuilt && Yes(a.saved)
  }

  /** What every mode that may broadcast asks for, short of the operator's word. */
  predicate Open(o: Options, a: Answers) {
    Loggable(o) && o.route != POLYGON_AMOY_TO_SEPOLIA && PlanReady(o, a) && Yes(a.swapCall) && a.initialQuote.Live?
  }

  /** Everything short of the operator's word. */
  predicate Cleared(o: Options, a: Answers) {
    && o.mode != READ_ONLY && o.mode != PREFLIGHT_ONLY && Open(o, a)
    && (o.mode == LIVE_TESTNET ==> AllowListed(o) && Funded(a))
  }

  predicate SourceConfirmed(o: Options) { Or(o.confirmSource, o.envConfirmSource) == Some(SOURCE_TOKEN) }

  predicate BridgeConfirmed(o: Options) { Or(o.confirmBridge, o.envConfirmBridge) == Some(BRIDGE_TOKEN) }

  /** The swap is mined with status 1 and its output established. */
  predicate SwapSettled(a: Answers) {
    a.swapSend.Returned? && Yes(a.swapReceipt) && a.extraction.Extracted?
  }

  predicate SwapSent(o: Options, a: Answers) {
    Cleared(o, a) && SourceConfirmed(o) && a.key.KeyOf?
  }

  predicate BridgeOpen(o: Options, a: Answers) {
    SwapSent(o, a) && SwapSettled(a) && Yes(a.freshQuote) && BridgeConfirmed(o)
  }

  predicate ApprovalSent(o: Options, a: Answers) {
    && BridgeOpen(o, a) && a.allowance.Returned? && a.allowance.value < a.extraction.amount
    && Yes(a.approveCall) && a.approveGas
  }

  /** The allowance covers the output, by itself or after a mined approval. */
  predicate Covered(a: Answers)
    requires a.extraction.Extracted?
  {
    && a.allowance.Returned?
    && (a.allowance.value < a.extraction.amount ==>
          Yes(a.approveCall) && a.approveGas && a.approveSend.Returned? && Yes(a.approveReceipt))
  }

  /** The encoded deposit moves exactly the swap's output, to its owner, on the chosen chain. */
  predicate Matches(o: Options, a: Answers, d: Deposit)
    requires a.key.KeyOf? && a.extraction.Extracted?
  {
    d == Deposit(a.key.address, a.key.address, INPUT_TOKEN, OUTPUT_TOKEN, a.extraction.amount, DestChain(o))
  }

  predicate BridgeSent(o: Options, a: Answers) {
    && BridgeOpen(o, a) && Covered(a)
    && a.decoded.Returned? && Matches(o, a, a.decoded.value)
    && Yes(a.bridgeCall) && a.bridgeGas && a.sendGas
  }

  predicate Filled(a: Answers) {
    (exists i :: 0 <= i < |a.polls| && Truthy(a.polls[i])) && Yes(a.fillReceipt) && a.balance
  }

  /** Swap, deposit and fill are all mined, and the delivery is read. */
  predicate Settled(o: Options, a: Answers) {
    BridgeSent(o, a) && a.bridgeSend.Returned? && Yes(a.bridgeReceipt) && Filled(a)
  }

  predicate IsHexDigit(c: char) { '0' <= c <= '9' || 'a' <= c <= 'f' || 'A' <= c <= 'F' }

  predicate LongHexAt(s: string, i: nat) {
    i + 66 <= |s| && s[i..i + 2] == "0x" && forall c :: c in s[i + 2..i + 66] ==> IsHexDigit(c)
  }

  /** A 32-byte hash in hex, which the audit log refuses outside its transactionHashes field. */
  predicate HasLongHex(s: string) {
    exists i :: 0 <= i < |s| && LongHexAt(s, i)
  }

  function Output(a: Answers): int { if a.extraction.Extracted? then a.extraction.amount else 0 }

  // ----- The same run as rows of gates, on the bare answers -----

  /** The chains a run is for: those asked for, or those of its route. */
  function FromChain(o: Options): int {
    match o.sourceChainId
    case Some(n) => if n != 0 then n else if o.route.MAINNET_ETH_TO_ARB? then 1 else 11155111
    case None => if o.route.MAINNET_ETH_TO_ARB? then 1 else 11155111
  }

  function ToChain(o: Options): int {
    match o.destChainId
    case Some(n) => if n != 0 then n else if o.route.MAINNET_ETH_TO_ARB? then 42161 else 421614
    case None => if o.route.MAINNET_ETH_TO_ARB? then 42161 else 421614
  }

  /** The operator's word: the option's, or else the environment's. */
  function Word(option: Option<string>, environment: Option<string>): Option<string> {
    if option != None && option != Some("") then option else environment
  }

  function Address(a: Answers): string { match a.key case KeyOf(address) => address case _ => "" }

  function ChainRow(o: Options): seq<Gate<Status>> {
    [ Gate(o.mode == LIVE_TESTNET ==> FromChain(o) == 11155111 && ToChain(o) == 421614 && o.route != MAINNET_ETH_TO_ARB, BLOCKED_OPERATOR_CONFIRMATION),
      Gate(o.route != POLYGON_AMOY_TO_SEPOLIA, BLOCKED_LIVE_COMPOSITE_ROUTE_UNAVAILABLE) ]
  }

  function PlanRow(o: Options, a: Answers): seq<Gate<Status>> {
    [ Gate(a.chainsKnown, BLOCKED_PRE_BROADCAST_VALIDATION),
      Gate(a.blockNumbers, BLOCKED_PRE_BROADCAST_VALIDATION),
      Gate(FromChain(o) in SPOKE_POOL_CHAINS && ToChain(o) in SPOKE_POOL_CHAINS, Rejected),
      Gate(a.code == Returned(true), BLOCKED_PRE_BROADCAST_VALIDATION),
      Gate(a.planBuilt, Rejected),
      Gate(a.saved != Thrown, Rejected),
      Gate(a.saved == Returned(true), BLOCKED_PRE_BROADCAST_VALIDATION) ]
  }

  /** READ_ONLY and PREFLIGHT_ONLY end here, and LIVE_TESTNET asks for a funded key. */
  function ModeRow(o: Options, a: Answers): seq<Gate<Status>> {
    [ Gate(o.mode != READ_ONLY || a.key == NoKey, READY_FOR_CONTROLLED_BRIDGE_BROADCAST),
      Gate(o.mode != READ_ONLY, BLOCKED_NO_FUNDED_KEY),
      Gate(o.mode != PREFLIGHT_ONLY, READY_FOR_CONTROLLED_BRIDGE_BROADCAST),
      Gate(o.mode != LIVE_TESTNET || a.key != NoKey, BLOCKED_NO_FUNDED_KEY),
      Gate(o.mode != LIVE_TESTNET || (a.key.KeyOf? && a.enough), BLOCKED_INSUFFICIENT_NATIVE_BALANCE),
      Gate(a.swapCall == Returned(true), BLOCKED_SOURCE_PREFLIGHT),
      Gate(a.initialQuote == Live, Rejected) ]
  }

  function PreflightRow(o: Options, a: Answers): seq<Gate<Status>> {
    [Gate(o.mode != Other(false), Rejected)] + (ChainRow(o) + (PlanRow(o, a) + ModeRow(o, a)))
  }

  /** Everything before the swap. */
  function SwapRow(o: Options, a: Answers): seq<Gate<Status>> {
    PreflightRow(o, a) +
    [ Gate(Word(o.confirmSource, o.envConfirmSource) == Some("CONFIRM_TESTNET_EXECUTION"), BLOCKED_OPERATOR_CONFIRMATION),
      Gate(a.key.KeyOf?, Rejected) ]
  }

  function SettledRow(a: Answers): seq<Gate<Status>> {
    [ Gate(a.swapSend != Thrown, FAILED),
      Gate(a.swapReceipt != Thrown, FAILED),
      Gate(a.swapReceipt == Returned(true), SOURCE_TRANSACTION_REVERT),
      Gate(a.extraction != Conflict, STATUS_CONFLICT),
      Gate(a.extraction != Unverified, BLOCKED_ACTUAL_OUTPUT_UNVERIFIED) ]
  }

  function SecondWordRow(o: Options, a: Answers): seq<Gate<Status>> {
    [ Gate(a.freshQuote == Returned(true), BLOCKED_POST_SWAP_BRIDGE_QUOTE),
      Gate(Word(o.confirmBridge, o.envConfirmBridge) == Some("CONFIRM_BRIDGE_TESTNET"),
           if a.swapSend.Returned? && HasLongHex(a.swapSend.value) then Rejected else BLOCKED_OPERATOR_CONFIRMATION) ]
  }

  /** The allowance does not cover the swap's output. */
  predicate Short(a: Answers) { match a.allowance case Returned(n) => n < Output(a) case Thrown => false }

  function BeforeApproval(a: Answers): seq<Gate<Status>> {
    [ Gate(a.allowance != Thrown, BLOCKED_BRIDGE_PREFLIGHT),
      Gate(Short(a) ==> a.approveCall == Returned(true), BLOCKED_BRIDGE_PREFLIGHT),
      Gate(Short(a) ==> a.approveGas, BLOCKED_BRIDGE_PREFLIGHT) ]
  }

  function AfterApproval(a: Answers): seq<Gate<Status>> {
    [ Gate(Short(a) ==> a.approveSend != Thrown, BLOCKED_BRIDGE_PREFLIGHT),
      Gate(Short(a) ==> a.approveReceipt != Thrown, BLOCKED_BRIDGE_PREFLIGHT),
      Gate(Short(a) ==> a.approveReceipt == Returned(true), FAILED) ]
  }

  /** The deposit moves exactly the swap's output, from and to its owner, and can be sent. */
  function DepositRow(o: Options, a: Answers): seq<Gate<Status>> {
    [ Gate(a.decoded == Returned(Deposit(Address(a), Address(a), INPUT_TOKEN, OUTPUT_TOKEN, Output(a), ToChain(o))), BLOCKED_BRIDGE_PREFLIGHT),
      Gate(a.bridgeCall == Returned(true), BLOCKED_BRIDGE_PREFLIGHT),
      Gate(a.bridgeGas, BLOCKED_BRIDGE_PREFLIGHT) ]
  }

  function SentRow(a: Answers): seq<Gate<Status>> {
    [ Gate(a.sendGas, FAILED),
      Gate(a.bridgeSend != Thrown, FAILED),
      Gate(a.bridgeReceipt != Thrown, FAILED),
      Gate(a.bridgeReceipt == Returned(true), BRIDGE_TRANSACTION_REVERT) ]
  }

  /** Nothing comes after the last of these: a settled run throws. */
  function FillRow(a: Answers): seq<Gate<Status>> {
    [ Gate(exists i :: 0 <= i < |a.polls| && a.polls[i] != None && a.polls[i] != Some(""), BRIDGE_TRACKING_UNAVAILABLE),
      Gate(a.fillReceipt != Returned(false), DESTINATION_RECEIPT_REVERT),
      Gate(a.fillReceipt == Returned(true), FAILED),
      Gate(a.balance, FAILED),
      Gate(false, Rejected) ]
  }

  function RestRow(o: Options, a: Answers): seq<Gate<Status>> {
    (BeforeApproval(a) + AfterApproval(a)) + (DepositRow(o, a) + (SentRow(a) + FillRow(a)))
  }

  function AfterSwapRow(o: Options, a: Answers): seq<Gate<Status>> { SettledRow(a) + (SecondWordRow(o, a) + RestRow(o, a)) }

  /** Every gate of a run, in the order it comes to them. */
  function RunRow(o: Options, a: Answers): seq<Gate<Status>> { SwapRow(o, a) + AfterSwapRow(o, a) }

  /** The sends: the swap behind its own gates, the approval and the deposit behind theirs too. */
  predicate SendsBehindGates(o: Options, a: Answers, trace: seq<Broadcast>) {
    var swap := AllOpen(SwapRow(o, a));
    var second := swap && AllOpen(SettledRow(a)) && AllOpen(SecondWordRow(o, a));
    var approval := second && AllOpen(BeforeApproval(a)) && Short(a);
    var deposit := second && AllOpen(BeforeApproval(a)) && AllOpen(AfterApproval(a)) && AllOpen(DepositRow(o, a)) && a.sendGas;
    trace == (if swap then [Swap] else []) + (if approval then [Approve(Output(a))] else []) + (if deposit then [Bridge(Output(a))] else [])
  }

  lemma PreflightInTurn(o: Options, a: Answers)
    ensures Verdict(PreflightRow(o, a)) ==
            if o.mode == Other(false) then Some(Rejected)
            else if Verdict(ChainRow(o)).Some? then Verdict(ChainRow(o))
            else if Verdict(PlanRow(o, a)).Some? then Verdict(PlanRow(o, a))
            else Verdict(ModeRow(o, a))
  {
    var logged: seq<Gate<Status>> := [Gate(o.mode != Other(false), Rejected)];
    InTurn(PlanRow(o, a), ModeRow(o, a));
    InTurn(ChainRow(o), PlanRow(o, a) + ModeRow(o, a));
    InTurn(logged, ChainRow(o) + (PlanRow(o, a) + ModeRow(o, a)));
    assert logged[1..] == [] && Verdict(logged) == if o.mode == Other(false) then Some(Rejected) else None;
  }

  // ----- The runner, stage by stage -----

  method CheckChains(o: Options) returns (stop: Option<Status>)
    ensures stop.None? <==> (o.mode == LIVE_TESTNET ==> AllowListed(o)) && o.route != POLYGON_AMOY_TO_SEPOLIA
    ensures stop == Verdict(ChainRow(o))
  {
    ghost var row := ChainRow(o);
    if o.mode == LIVE_TESTNET {
      if SourceChain(o) != ALLOWED_SOURCE || DestChain(o) != ALLOWED_DESTINATION || o.route == MAINNET_ETH_TO_ARB {
        StopsAt(row, 0);
        return Some(BLOCKED_OPERATOR_CONFIRMATION);
      }
    }
    if o.route == POLYGON_AMOY_TO_SEPOLIA {
      StopsAt(row, 1);
      return Some(BLOCKED_LIVE_COMPOSITE_ROUTE_UNAVAILABLE);
    }
    PassesAll(row);
    stop := None;
  }

  /** The composite check on the plan is not among the exits: it always passes (CompositePlan). */
  method PreparePlan(o: Options, a: Answers) returns (stop: Option<Status>)
    ensures stop.None? <==> PlanReady(o, a)
    ensures stop == Verdict(PlanRow(o, a))
  {
    ghost var row := PlanRow(o, a);
    if !a.chainsKnown { StopsAt(row, 0); return Some(BLOCKED_PRE_BROADCAST_VALIDATION); }
    if !a.blockNumbers { StopsAt(row, 1); return Some(BLOCKED_PRE_BROADCAST_VALIDATION); }
    if SourceChain(o) !in SPOKE_POOL_CHAINS || DestChain(o) !in SPOKE_POOL_CHAINS { StopsAt(row, 2); return Some(Rejected); }
    if !Yes(a.code) { StopsAt(row, 3); return Some(BLOCKED_PRE_BROADCAST_VALIDATION); }
    if !a.planBuilt { StopsAt(row, 4); return Some(Rejected); }
    if a.saved.Thrown? { StopsAt(row, 5); return Some(Rejected); }
    if !a.saved.value { StopsAt(row, 6); return Some(BLOCKED_PRE_BROADCAST_VALIDATION); }
    PassesAll(row);
    stop := None;
  }

  /** What the modes ask for: two of them end here, LIVE_TESTNET wants a funded key, and the swap is tried
      with eth_call. The summary shown to the operator formats a field that a made-up quote does not have,
      so with one the runner throws before it asks. */
  method CheckMode(o: Options, a: Answers) returns (stop: Option<Status>)
    ensures stop == Verdict(ModeRow(o, a))
    ensures stop.None? <==>
      && o.mode != READ_ONLY && o.mode != PREFLIGHT_ONLY && (o.mode == LIVE_TESTNET ==> Funded(a))
      && Yes(a.swapCall) && a.initialQuote.Live?
  {
    ghost var row := ModeRow(o, a);
    if o.mode == READ_ONLY {
      if a.key != NoKey { StopsAt(row, 0); return Some(READY_FOR_CONTROLLED_BRIDGE_BROADCAST); }
      StopsAt(row, 1);
      return Some(BLOCKED_NO_FUNDED_KEY);
    }
    if o.mode == PREFLIGHT_ONLY { StopsAt(row, 2); return Some(READY_FOR_CONTROLLED_BRIDGE_BROADCAST); }
    if o.mode == LIVE_TESTNET {
      if a.key == NoKey { StopsAt(row, 3); return Some(BLOCKED_NO_FUNDED_KEY); }
      if !Funded(a) { StopsAt(row, 4); return Some(BLOCKED_INSUFFICIENT_NATIVE_BALANCE); }
    }
    if !Yes(a.swapCall) { StopsAt(row, 5); return Some(BLOCKED_SOURCE_PREFLIGHT); }
    if a.initialQuote.Fallback? { StopsAt(row, 6); return Some(Rejected); }
    PassesAll(row);
    stop := None;
  }

  /** Everything before the first confirmation. */
  method Preflight(o: Options, a: Answers) returns (stop: Option<Status>)
    ensures stop.None? <==> Cleared(o, a)
    ensures stop == Verdict(PreflightRow(o, a))
  {
    PreflightInTurn(o, a);
    if o.mode == Other(false) { return Some(Rejected); }
    stop := CheckChains(o);
    if stop.Some? { return; }
    stop := PreparePlan(o, a);
    if stop.Some? { return; }
    stop := CheckMode(o, a);
  }

  /** The source swap, from the broadcast to its extracted output. */
  method SwapStage(a: Answers) returns (stop: Option<Status>, sourceTxHash: Option<string>)
    ensures stop.None? <==> SwapSettled(a)
    ensures sourceTxHash == if a.swapSend.Returned? then Some(a.swapSend.value) else None
    ensures stop == Verdict(SettledRow(a))
  {
    ghost var row := SettledRow(a);
    if a.swapSend.Thrown? { StopsAt(row, 0); return Some(FAILED), None; }
    sourceTxHash := Some(a.swapSend.value);
    if a.swapReceipt.Thrown? { StopsAt(row, 1); return Some(FAILED), sourceTxHash; }
    if !a.swapReceipt.value { StopsAt(row, 2); return Some(SOURCE_TRANSACTION_REVERT), sourceTxHash; }
    match a.extraction
    case Extracted(_) => PassesAll(row); stop := None;
    case Conflict => StopsAt(row, 3); stop := Some(STATUS_CONFLICT);
    case Unverified => StopsAt(row, 4); stop := Some(BLOCKED_ACTUAL_OUTPUT_UNVERIFIED);
  }

  /** The fresh quote and the second confirmation. The refusal of an unconfirmed deposit is written to
      the audit log with the swap's hash among the quote identifiers, where the log's check throws on it. */
  method BridgeGate(o: Options, a: Answers, sourceTxHash: string) returns (stop: Option<Status>)
    requires a.swapSend == Returned(sourceTxHash)
    ensures stop.None? <==> Yes(a.freshQuote) && BridgeConfirmed(o)
    ensures stop == Verdict(SecondWordRow(o, a))
  {
    ghost var row := SecondWordRow(o, a);
    if !Yes(a.freshQuote) { StopsAt(row, 0); return Some(BLOCKED_POST_SWAP_BRIDGE_QUOTE); }
    if Or(o.confirmBridge, o.envConfirmBridge) != Some(BRIDGE_TOKEN) {
      StopsAt(row, 1);
      return Some(if HasLongHex(sourceTxHash) then Rejected else BLOCKED_OPERATOR_CONFIRMATION);
    }
    PassesAll(row);
    stop := None;
  }

  /** The approval of the exact output, when the allowance is short. A failure after the approval was
      sent is reported without its hash, except when its receipt says it reverted. */
  method ApprovalStage(a: Answers) returns (stop: Option<Status>, approvalTxHash: Option<string>, sent: seq<Broadcast>)
    requires a.extraction.Extracted?
    ensures stop.None? <==> Covered(a)
    ensures sent == if a.allowance.Returned? && a.allowance.value < a.extraction.amount && Yes(a.approveCall) && a.approveGas
                    then [Approve(a.extraction.amount)] else []
    ensures sent == if AllOpen(BeforeApproval(a)) && Short(a) then [Approve(Output(a))] else []
    ensures approvalTxHash.Some? ==> sent != [] && a.approveSend == Returned(approvalTxHash.value)
    ensures stop.None? ==> (approvalTxHash.Some? <==> sent != [])
    ensures stop.Some? ==> stop.value == (if approvalTxHash.Some? then FAILED else BLOCKED_BRIDGE_PREFLIGHT)
    ensures stop == Verdict(BeforeApproval(a) + AfterApproval(a))
  {
    sent, approvalTxHash, stop := [], None, None;
    ghost var row := BeforeApproval(a) + AfterApproval(a);
    if a.allowance.Thrown? { StopsAt(row, 0); return Some(BLOCKED_BRIDGE_PREFLIGHT), None, sent; }
    if a.allowance.value < a.extraction.amount {
      if !Yes(a.approveCall) || !a.approveGas {
        StopsAt(row, if Yes(a.approveCall) then 2 else 1);
        return Some(BLOCKED_BRIDGE_PREFLIGHT), None, sent;
      }
      sent := [Approve(a.extraction.amount)];
      if a.approveSend.Thrown? || a.approveReceipt.Thrown? {
        StopsAt(row, if a.approveSend.Thrown? then 3 else 4);
        return Some(BLOCKED_BRIDGE_PREFLIGHT), None, sent;
      }
      approvalTxHash := Some(a.approveSend.value);
      if !a.approveReceipt.value { StopsAt(row, 5); return Some(FAILED), approvalTxHash, sent; }
    }
    PassesAll(row);
  }

  /** The deposit's calldata is decoded and compared field by field, then tried with eth_call. */
  method BridgePreflight(o: Options, a: Answers) returns (stop: Option<Status>)
    requires a.key.KeyOf? && a.extraction.Extracted?
    ensures stop.None? <==> a.decoded.Returned? && Matches(o, a, a.decoded.value) && Yes(a.bridgeCall) && a.bridgeGas
    ensures stop == Verdict(DepositRow(o, a))
  {
    ghost var row := DepositRow(o, a);
    if a.decoded.Thrown? { StopsAt(row, 0); return Some(BLOCKED_BRIDGE_PREFLIGHT); }
    var d := a.decoded.value;
    if d.depositor != a.key.address || d.recipient != a.key.address || d.inputToken != INPUT_TOKEN || d.outputToken != OUTPUT_TOKEN
      || d.amount != a.extraction.amount || d.chainId != DestChain(o) {
      StopsAt(row, 0);
      return Some(BLOCKED_BRIDGE_PREFLIGHT);
    }
    if !Yes(a.bridgeCall) { StopsAt(row, 1); return Some(BLOCKED_BRIDGE_PREFLIGHT); }
    if !a.bridgeGas { StopsAt(row, 2); return Some(BLOCKED_BRIDGE_PREFLIGHT); }
    PassesAll(row);
    stop := None;
  }

  method BridgeStage(a: Answers) returns (stop: Option<Status>, bridgeTxHash: Option<string>)
    ensures stop.None? <==> a.sendGas && a.bridgeSend.Returned? && Yes(a.bridgeReceipt)
    ensures bridgeTxHash == if a.sendGas && a.bridgeSend.Returned? then Some(a.bridgeSend.value) else None
    ensures stop == Verdict(SentRow(a))
  {
    ghost var row := SentRow(a);
    if !a.sendGas { StopsAt(row, 0); return Some(FAILED), None; }
    if a.bridgeSend.Thrown? { StopsAt(row, 1); return Some(FAILED), None; }
    bridgeTxHash := Some(a.bridgeSend.value);
    if a.bridgeReceipt.Thrown? { StopsAt(row, 2); return Some(FAILED), bridgeTxHash; }
    if !a.bridgeReceipt.value { StopsAt(row, 3); return Some(BRIDGE_TRANSACTION_REVERT), bridgeTxHash; }
    PassesAll(row);
    stop := None;
  }

  /** A fill is the first that a poll tells of. */
  predicate FirstFill(polls: seq<Option<string>>, fill: Option<string>) {
    fill.Some? ==> exists i :: 0 <= i < |polls| && polls[i] == fill && Truthy(fill) && forall j :: 0 <= j < i ==> !Truthy(polls[j])
  }

  /** The polling loop stops at the first fill it is told of. */
  method PollForFill(polls: seq<Option<string>>) returns (fill: Option<string>)
    ensures Truthy(fill) || fill == None
    ensures fill.Some? ==> exists i :: 0 <= i < |polls| && polls[i] == fill && forall j :: 0 <= j < i ==> !Truthy(polls[j])
    ensures fill.None? <==> forall i :: 0 <= i < |polls| ==> !Truthy(polls[i])
  {
    for i := 0 to |polls|
      invariant forall j :: 0 <= j < i ==> !Truthy(polls[j])
    {
      if Truthy(polls[i]) { return polls[i]; }
    }
    fill := None;
  }

  /** From the mined deposit on. Once everything is settled the runner marks the plan SUCCESS through a
      method its repository does not have, and throws. */
  method Settle(a: Answers) returns (status: Status, fill: Option<string>)
    ensures status == Rejected <==> Filled(a)
    ensures Some(status) == Verdict(FillRow(a)) && FirstFill(a.polls, fill)
  {
    ghost var row := FillRow(a);
    fill := PollForFill(a.polls);
    if fill.None? { StopsAt(row, 0); return BRIDGE_TRACKING_UNAVAILABLE, None; }
    if a.fillReceipt.Returned? && !a.fillReceipt.value { StopsAt(row, 1); return DESTINATION_RECEIPT_REVERT, fill; }
    if a.fillReceipt.Thrown? || !a.balance { StopsAt(row, if a.fillReceipt.Thrown? then 2 else 3); return FAILED, fill; }
    StopsAt(row, 4);
    status := Rejected;
  }

  /** The sends of a run. */
  function TraceOf(o: Options, a: Answers): seq<Broadcast> {
    (if SwapSent(o, a) then [Swap] else [])
    + (if ApprovalSent(o, a) then [Approve(a.extraction.amount)] else [])
    + (if BridgeSent(o, a) then [Bridge(a.extraction.amount)] else [])
  }

  /** In every mode a swap needs a live quote, a key and the exact source token; an approval or a bridge
      also a swap mined with status 1 and the exact bridge token; a bridge also calldata that moves
      exactly the output to its owner. Allow-list and funding are asked for in LIVE_TESTNET only. */
  predicate Gated(o: Options, a: Answers, trace: seq<Broadcast>) {
    && (trace != [] ==> Or(o.confirmSource, o.envConfirmSource) == Some(SOURCE_TOKEN) && a.key.KeyOf? && a.initialQuote.Live?)
    && (trace != [] ==> a.chainsKnown && a.blockNumbers && a.code == Returned(true) && a.planBuilt && a.saved == Returned(true))
    && (trace != [] ==> a.swapCall == Returned(true))
    && (trace != [] && o.mode == LIVE_TESTNET ==> AllowListed(o) && Funded(a))
    && (|trace| > 1 ==>
          && Or(o.confirmBridge, o.envConfirmBridge) == Some(BRIDGE_TOKEN)
          && a.swapReceipt == Returned(true) && a.extraction.Extracted? && a.freshQuote == Returned(true))
    && (HasBridge(trace) ==>
          && a.bridgeCall == Returned(true) && a.bridgeGas && a.sendGas && a.allowance.Returned?
          && (a.allowance.value < Output(a) ==> a.approveSend.Returned? && a.approveReceipt == Returned(true))
          && a.key.KeyOf?
          && a.decoded == Returned(Deposit(a.key.address, a.key.address, INPUT_TOKEN, OUTPUT_TOKEN, Output(a), DestChain(o))))
  }

  /** The hashes a result names are those of its sends; it leaves one out only when the send threw, when
      the runner itself throws, or, for an approval, when it stops at the bridge preflight. */
  predicate Reported(a: Answers, r: Outcome) {
    && (r.sourceTxHash.Some? ==> r.trace != [] && a.swapSend == Returned(r.sourceTxHash.value))
    && (r.approvalTxHash.Some? ==> HasApproval(r.trace) && a.approveSend == Returned(r.approvalTxHash.value))
    && (r.bridgeTxHash.Some? ==> HasBridge(r.trace) && a.bridgeSend == Returned(r.bridgeTxHash.value))
    && FirstFill(a.polls, r.destinationTxHash) && (r.destinationTxHash.Some? ==> HasBridge(r.trace) && a.bridgeReceipt == Returned(true))
    && (r.status != Rejected ==>
          && (r.trace != [] && a.swapSend.Returned? ==> r.sourceTxHash.Some?)
          && (HasApproval(r.trace) && r.status != BLOCKED_BRIDGE_PREFLIGHT ==> r.approvalTxHash.Some?)
          && (HasBridge(r.trace) && a.bridgeSend.Returned? ==> r.bridgeTxHash.Some?))
  }

  /** The whole run: what it sends, exactly, and what every send was guarded by. It never reports
      success: the runs that end in an exception with the deposit sent are those that settled. */
  method Run(o: Options, a: Answers) returns (r: Outcome)
    ensures r.trace == TraceOf(o, a)
    ensures Allowed(r.trace, Output(a)) && (HasBridge(r.trace) ==> Last(r.trace) == Bridge(Output(a)))
    ensures o.mode == READ_ONLY || o.mode == PREFLIGHT_ONLY ==> r.trace == []
    ensures Gated(o, a, r.trace)
    ensures Some(r.status) == Verdict(RunRow(o, a)) && SendsBehindGates(o, a, r.trace)
    ensures r.status != LIVE_E2E_SUCCESS
    ensures r.status == Rejected && HasBridge(r.trace) <==> Settled(o, a)
    ensures r.status == READY_FOR_CONTROLLED_BRIDGE_BROADCAST ==> r.trace == []
    ensures Reported(a, r)
  {
    var stop := CheckSource(o, a);
    InTurn(SwapRow(o, a), AfterSwapRow(o, a));
    PassesAll(SwapRow(o, a));
    if stop.Some? {
      NeverSuccess(o, a);
      return Stopped(stop.value);
    }
    r := SendAll(o, a);
  }

  /** No gate answers with success. */
  lemma NeverSuccess(o: Options, a: Answers)
    ensures Verdict(SwapRow(o, a)) != Some(LIVE_E2E_SUCCESS)
  {
    if Verdict(SwapRow(o, a)).Some? { var i := FirstClosed(SwapRow(o, a)); }
  }

  /** Preflight, the operator's first word, and the key. */
  method CheckSource(o: Options, a: Answers) returns (stop: Option<Status>)
    ensures stop.None? <==> SwapSent(o, a)
    ensures stop == Verdict(SwapRow(o, a))
  {
    ghost var last: seq<Gate<Status>> :=
      [ Gate(Word(o.confirmSource, o.envConfirmSource) == Some("CONFIRM_TESTNET_EXECUTION"), BLOCKED_OPERATOR_CONFIRMATION),
        Gate(a.key.KeyOf?, Rejected) ];
    InTurn(PreflightRow(o, a), last);
    stop := Preflight(o, a);
    if stop.Some? { return; }
    if Or(o.confirmSource, o.envConfirmSource) != Some(SOURCE_TOKEN) { StopsAt(last, 0); return Some(BLOCKED_OPERATOR_CONFIRMATION); }
    // The key is trimmed and made a wallet whatever the mode; either throws when there is none.
    if !a.key.KeyOf? { StopsAt(last, 1); return Some(Rejected); }
    PassesAll(last);
    stop := None;
  }

  /** The part of the run that may broadcast. */
  method SendAll(o: Options, a: Answers) returns (r: Outcome)
    requires SwapSent(o, a) && AllOpen(SwapRow(o, a))
    ensures r.trace == TraceOf(o, a) && SendsBehindGates(o, a, r.trace)
    ensures Some(r.status) == Verdict(AfterSwapRow(o, a))
    ensures r.status == Rejected && HasBridge(r.trace) <==> Settled(o, a)
    ensures r.status != READY_FOR_CONTROLLED_BRIDGE_BROADCAST && r.status != LIVE_E2E_SUCCESS
    ensures Reported(a, r)
  {
    AfterSwapInTurn(o, a);
    var stop, sourceTxHash := SwapStage(a);
    if stop.Some? {
      AfterSwapAnswers(a);
      OnlySwapSent(o, a);
      r := Outcome(stop.value, sourceTxHash, None, None, None, [Swap]);
      OnlySwapReported(a, r);
      return;
    }
    stop := BridgeGate(o, a, sourceTxHash.value);
    if stop.Some? {
      SecondWordAnswers(o, a);
      OnlySwapSent(o, a);
      r := Outcome(stop.value, if stop.value == Rejected then None else sourceTxHash, None, None, None, [Swap]);
      OnlySwapReported(a, r);
      return;
    }
    r := SendRest(o, a);
  }

  lemma AfterSwapInTurn(o: Options, a: Answers)
    ensures Verdict(AfterSwapRow(o, a)) ==
            if Verdict(SettledRow(a)).Some? then Verdict(SettledRow(a))
            else if Verdict(SecondWordRow(o, a)).Some? then Verdict(SecondWordRow(o, a))
            else Verdict(RestRow(o, a))
    ensures Verdict(SettledRow(a)).None? <==> AllOpen(SettledRow(a))
    ensures Verdict(SecondWordRow(o, a)).None? <==> AllOpen(SecondWordRow(o, a))
  {
    InTurn(SettledRow(a), SecondWordRow(o, a) + RestRow(o, a));
    InTurn(SecondWordRow(o, a), RestRow(o, a));
    PassesAll(SettledRow(a));
    PassesAll(SecondWordRow(o, a));
  }

  lemma OnlySwapReported(a: Answers, r: Outcome)
    requires r.trace == [Swap] && r.approvalTxHash == r.bridgeTxHash == r.destinationTxHash == None
    requires r.sourceTxHash.Some? ==> a.swapSend == Returned(r.sourceTxHash.value)
    requires r.status != Rejected && a.swapSend.Returned? ==> r.sourceTxHash.Some?
    ensures Reported(a, r) && !HasBridge(r.trace)
  {
  }

  /** A run stopped between the swap and the approval has sent the swap alone. */
  lemma OnlySwapSent(o: Options, a: Answers)
    requires SwapSent(o, a) && AllOpen(SwapRow(o, a)) && !BridgeOpen(o, a)
    requires !(AllOpen(SettledRow(a)) && AllOpen(SecondWordRow(o, a)))
    ensures TraceOf(o, a) == [Swap] && SendsBehindGates(o, a, [Swap])
  {
  }

  lemma AfterSwapAnswers(a: Answers)
    requires Verdict(SettledRow(a)).Some?
    ensures Verdict(SettledRow(a)).value in {FAILED, SOURCE_TRANSACTION_REVERT, STATUS_CONFLICT, BLOCKED_ACTUAL_OUTPUT_UNVERIFIED}
  {
    var i := FirstClosed(SettledRow(a));
  }

  lemma SecondWordAnswers(o: Options, a: Answers)
    requires Verdict(SecondWordRow(o, a)).Some?
    ensures Verdict(SecondWordRow(o, a)).value in {BLOCKED_POST_SWAP_BRIDGE_QUOTE, BLOCKED_OPERATOR_CONFIRMATION, Rejected}
  {
    var i := FirstClosed(SecondWordRow(o, a));
  }

  /** From the second confirmation on. */
  method SendRest(o: Options, a: Answers) returns (r: Outcome)
    requires BridgeOpen(o, a) && AllOpen(SwapRow(o, a)) && AllOpen(SettledRow(a)) && AllOpen(SecondWordRow(o, a))
    ensures r.trace == TraceOf(o, a) && SendsBehindGates(o, a, r.trace)
    ensures Some(r.status) == Verdict(RestRow(o, a))
    ensures r.status == Rejected <==> Settled(o, a)
    ensures r.status != READY_FOR_CONTROLLED_BRIDGE_BROADCAST && r.status != LIVE_E2E_SUCCESS
    ensures Reported(a, r)
  {
    RestInTurn(o, a);
    var sourceTxHash := Some(a.swapSend.value);
    var stop, approvalTxHash, sent := ApprovalStage(a);
    var trace := [Swap] + sent;
    if stop.Some? { return Outcome(stop.value, sourceTxHash, approvalTxHash, None, None, trace); }
    stop := BridgePreflight(o, a);
    if stop.Some? {
      DepositAnswers(o, a);
      return Outcome(stop.value, sourceTxHash, None, None, None, trace);
    }
    r := SendDeposit(o, a, approvalTxHash, trace);
  }

  lemma RestInTurn(o: Options, a: Answers)
    ensures Verdict(RestRow(o, a)) ==
            if Verdict(BeforeApproval(a) + AfterApproval(a)).Some? then Verdict(BeforeApproval(a) + AfterApproval(a))
            else if Verdict(DepositRow(o, a)).Some? then Verdict(DepositRow(o, a))
            else if Verdict(SentRow(a)).Some? then Verdict(SentRow(a))
            else Verdict(FillRow(a))
    ensures Verdict(BeforeApproval(a) + AfterApproval(a)).None? <==> AllOpen(BeforeApproval(a)) && AllOpen(AfterApproval(a))
    ensures Verdict(DepositRow(o, a)).None? <==> AllOpen(DepositRow(o, a))
  {
    InTurn(BeforeApproval(a) + AfterApproval(a), DepositRow(o, a) + (SentRow(a) + FillRow(a)));
    InTurn(DepositRow(o, a), SentRow(a) + FillRow(a));
    InTurn(SentRow(a), FillRow(a));
    InTurn(BeforeApproval(a), AfterApproval(a));
    PassesAll(BeforeApproval(a));
    PassesAll(AfterApproval(a));
    PassesAll(DepositRow(o, a));
  }

  lemma DepositAnswers(o: Options, a: Answers)
    requires Verdict(DepositRow(o, a)).Some?
    ensures Verdict(DepositRow(o, a)).value == BLOCKED_BRIDGE_PREFLIGHT
  {
    var i := FirstClosed(DepositRow(o, a));
  }

  /** What is answered from the deposit's send on. */
  lemma LastAnswers(a: Answers)
    ensures Verdict(SentRow(a)).Some? ==> Verdict(SentRow(a)).value in {FAILED, BRIDGE_TRANSACTION_REVERT}
    ensures Verdict(FillRow(a)).Some? ==>
              Verdict(FillRow(a)).value in {BRIDGE_TRACKING_UNAVAILABLE, DESTINATION_RECEIPT_REVERT, FAILED, Rejected}
  {
    if Verdict(SentRow(a)).Some? { var i := FirstClosed(SentRow(a)); }
    if Verdict(FillRow(a)).Some? { var i := FirstClosed(FillRow(a)); }
  }

  /** The deposit and its settlement. */
  method SendDeposit(o: Options, a: Answers, approvalTxHash: Option<string>, before: seq<Broadcast>) returns (r: Outcome)
    requires BridgeOpen(o, a) && Covered(a) && a.decoded.Returned? && Matches(o, a, a.decoded.value) && Yes(a.bridgeCall) && a.bridgeGas
    requires before == [Swap] + if ApprovalSent(o, a) then [Approve(a.extraction.amount)] else []
    requires approvalTxHash == if ApprovalSent(o, a) then Some(a.approveSend.value) else None
    ensures r.trace == before + (if a.sendGas then [Bridge(a.extraction.amount)] else [])
    ensures Some(r.status) == if Verdict(SentRow(a)).Some? then Verdict(SentRow(a)) else Verdict(FillRow(a))
    ensures r.status == Rejected <==> Settled(o, a)
    ensures r.status != READY_FOR_CONTROLLED_BRIDGE_BROADCAST && r.status != LIVE_E2E_SUCCESS
    ensures Reported(a, r)
  {
    LastAnswers(a);
    var sourceTxHash := Some(a.swapSend.value);
    var stop, bridgeTxHash := BridgeStage(a);
    var trace := before;
    if a.sendGas { trace := trace + [Bridge(a.decoded.value.amount)]; }
    if stop.Some? { return Outcome(stop.value, sourceTxHash, approvalTxHash, bridgeTxHash, None, trace); }
    var status, fill := Settle(a);
    r := if status == Rejected then Outcome(Rejected, None, None, None, None, trace)
         else Outcome(status, sourceTxHash, approvalTxHash, bridgeTxHash, fill, trace);
  }

  // ----- What the gates leave open -----

  /** Sends without the testnet gates: a run that broadcasts for chains that are not allow-listed, or
      without enough balance, is a run in a mode of no known name that passes every other gate. */
  lemma UngatedSendsExactly(o: Options, a: Answers)
    ensures TraceOf(o, a) != [] && !(AllowListed(o) && Funded(a)) <==>
            o.mode.Other? && Open(o, a) && SourceConfirmed(o) && a.key.KeyOf? && !(AllowListed(o) && a.enough)
  {
  }

  /** Every 32-byte transaction hash is refused by the audit log, so with a real hash the refusal of an
      unconfirmed deposit never reaches the caller. */
  lemma RealHashesAreLong(digits: string)
    requires |digits| == 64 && forall c :: c in digits ==> IsHexDigit(c)
    ensures HasLongHex("0x" + digits)
  {
    var s := "0x" + digits;
    assert s[0..2] == "0x" && s[2..66] == digits;
    assert LongHexAt(s, 0);
  }

  const USER := "0x5aaeb6053f3e94c9b9a09f33669435e7ef1beaed"

  /** Both tokens given, from the allow-listed testnets or for mainnet chains. */
  const TESTNET := Options(LIVE_TESTNET, SEPOLIA_TO_ARB_SEPOLIA, None, None, Some(SOURCE_TOKEN), Some(BRIDGE_TOKEN), None, None)
  const MAINNET := TESTNET.(mode := Other(true), route := MAINNET_ETH_TO_ARB)

  /** A world in which everything goes well. */
  const AGREEABLE := Answers(
    true, true, Returned(true), Live, true, Returned(true), KeyOf(USER), true, Returned(true),
    Returned("0xswap"), Returned(true), Extracted(2492500),
    Returned(true), Returned(0), Returned(true), true, Returned("0xapprove"), Returned(true),
    Returned(Deposit(USER, USER, INPUT_TOKEN, OUTPUT_TOKEN, 2492500, ALLOWED_DESTINATION)), Returned(true),
    true, true, Returned("0xbridge"), Returned(true),
    [Some("0xfill")], Returned(true), true)

  /** Even there the run ends in an exception: three transactions are sent and mined, the deposit is
      filled, and no result says so. */
  lemma SettledRunThrows()
    ensures Settled(TESTNET, AGREEABLE) && AllowListed(TESTNET) && Funded(AGREEABLE)
    ensures TraceOf(TESTNET, AGREEABLE) == [Swap, Approve(2492500), Bridge(2492500)]
  {
    assert Truthy(AGREEABLE.polls[0]);
  }

  /** In a mode of no known name the swap is sent for mainnet chains by a wallet without enough balance. */
  lemma OtherModeSendsUnlisted()
    ensures var a := AGREEABLE.(enough := false);
            !AllowListed(MAINNET) && !Funded(a) && TraceOf(MAINNET, a)[..1] == [Swap]
  {
    assert SwapSent(MAINNET, AGREEABLE.(enough := false));
  }

  /** A quote the runner makes up itself sends nothing, in any mode. */
  lemma FallbackQuoteSendsNothing(o: Options, a: Answers)
    requires a.initialQuote.Fallback?
    ensures TraceOf(o, a) == []
  {
  }
}
