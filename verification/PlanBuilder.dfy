/** buildPlan: turns a route and a request into a chain of steps, and what the validator makes of it. */
module PlanBuilder {
  import opened Js
  import opened PlanModel
  import opened CanonicalJson
  import PlanSeal

  datatype DexQuote = DexQuote(
    provider: string, executionTarget: Option<string>, approvalTarget: Option<string>, calldata: Option<string>,
    amountIn: Option<int>, amountOut: Option<int>, minimumAmountOut: Option<int>, feeAmount: Option<int>,
    tokenOut: Option<Token>, expiration: Option<int>)

  datatype BridgeQuote = BridgeQuote(
    provider: string, executionTarget: Option<string>, approvalTarget: Option<string>, calldata: Option<string>,
    sourceDexQuote: Option<DexQuote>, destDexQuote: Option<DexQuote>,
    sourceConnectorToken: Option<Token>, destConnectorToken: Option<Token>,
    compositeExecutionMode: Option<CompositeMode>, unexecutableReason: Option<string>,
    destinationAmountRaw: Option<string>, minDestinationAmountRaw: Option<string>,
    relayerFee: Option<string>, expiration: Option<int>, capabilityLevel: Option<string>)

  datatype RouteExecution = RouteExecution(
    to: Option<string>, data: Option<string>, value: Option<string>, approvalTarget: Option<string>)

  datatype Route = Route(
    id: string, multiHop: bool, firstHopDex: Option<string>,
    dexQuote: Option<DexQuote>, crossChainQuote: Option<BridgeQuote>, execution: Option<RouteExecution>,
    isExecutable: Option<bool>, unexecutableReason: Option<string>, capabilityLevel: Option<string>)

  datatype Request = Request(
    sourceChainId: string, destinationChainId: string, tokenIn: Token, tokenOut: Token, amountInRaw: string,
    recipientAddress: Option<string>, userWalletAddress: Option<string>)

  /** Everything buildPlan reads: its arguments, the registries and validators it consults, and the
      plan id it draws from the clock and a counter. */
  datatype Input = Input(
    host: Host, lookups: Lookups, route: Route, request: Request,
    userAddress: Option<string>, recipientOption: Option<string>, planId: string)
  {
    predicate CrossChain() { request.sourceChainId != request.destinationChainId }
    function SourceDex(): Option<DexQuote> { Quoted().sourceDexQuote }
    function DestDex(): Option<DexQuote> { Quoted().destDexQuote }
    predicate SourceNative() { lookups.nativeToken(request.tokenIn.address) || request.tokenIn.isNative }
    function SourceChain(): Option<ChainInfo> { lookups.chain(request.sourceChainId) }
    function DestChain(): Option<ChainInfo> { lookups.chain(request.destinationChainId) }
    function SourceEnv(): ExecutionEnvironment { EnvOf(SourceChain()) }
    function DestEnv(): ExecutionEnvironment { EnvOf(DestChain()) }
    function SourceNumeric(): Option<int> { if SourceChain().Some? then SourceChain().value.chainId else None }
    function DestNumeric(): Option<int> { if DestChain().Some? then DestChain().value.chainId else None }
    /** Whose address the plan is for. */
    function Recipient(): Option<string> {
      Or(request.recipientAddress, Or(request.userWalletAddress, Or(recipientOption, userAddress)))
    }
    /** The recipient that is checked: the option's, or else the request's. */
    predicate AddressesValid() {
      && lookups.tokenAddress(request.tokenIn.address, request.sourceChainId, request.tokenIn.isNative)
      && lookups.tokenAddress(request.tokenOut.address, request.destinationChainId, request.tokenOut.isNative)
      && (Truthy(userAddress) ==> lookups.evmAddress(userAddress.value))
      && var recipient := Or(recipientOption, request.recipientAddress);
         Truthy(recipient) ==> lookups.recipientAddress(recipient.value, request.destinationChainId)
    }
    /** The optional parts of a route; an absent one reads as one whose every field is undefined. */
    function Exec(): RouteExecution { if route.execution.Some? then route.execution.value else RouteExecution(None, None, None, None) }
    function Quoted(): BridgeQuote {
      if route.crossChainQuote.Some? then route.crossChainQuote.value
      else BridgeQuote("", None, None, None, None, None, None, None, None, None, None, None, None, None, None)
    }
    function Dexed(): DexQuote {
      if route.dexQuote.Some? then route.dexQuote.value
      else DexQuote("", None, None, None, None, None, None, None, None, None)
    }
    function Protocol(): string { if Quoted().provider != "" then Quoted().provider else "BRIDGE" }
    function SwapProtocol(): string {
      if Dexed().provider != "" then Dexed().provider
      else if Truthy(route.firstHopDex) then route.firstHopDex.value
      else "ZENITH_V3"
    }
    function SwapTarget(): Option<string> { Or(Exec().to, Dexed().executionTarget) }
    function SwapData(): Option<string> { Or(Exec().data, Dexed().calldata) }
    function DepositTarget(): Option<string> { Or(Exec().to, Quoted().executionTarget) }
    function DepositData(): Option<string> { Or(Exec().data, Quoted().calldata) }
    function Connector(): Option<Token> { Quoted().sourceConnectorToken }

    /** The destination swap step is emitted unless its mode and calldata give it nothing to run. */
    predicate DestSwapRuns() {
      && DestDex().Some?
      && Truthy(DestDex().value.calldata) && DestDex().value.calldata.value != "0x"
      && Quoted().compositeExecutionMode != Some(Unsupported)
    }
  }

  function AmountText(a: Option<int>): Option<string> {
    if a.Some? then Some(Decimal(a.value)) else None
  }

  function Blank(id: string, kind: StepKind, chainId: string, numeric: Option<int>, env: ExecutionEnvironment): Step {
    Step(id, kind, chainId, numeric, env, [], None, None, None, None, None, None, None, None, None, NotStarted, None, None)
  }

  function AddressOf(t: Option<Token>): Option<string> {
    if t.Some? then Some(t.value.address) else None
  }

  // ----- The steps, before their dependencies are filled in -----

  function ApprovalStep(inp: Input): Step {
    var target := Or(inp.Exec().approvalTarget, Or(inp.Dexed().approvalTarget, inp.Quoted().approvalTarget));
    Blank("approval:source:" + inp.host.upper(inp.request.tokenIn.symbol), Approval,
          inp.request.sourceChainId, inp.SourceNumeric(), EVM)
    .(targetAddress := Some(inp.request.tokenIn.address), approvalTarget := target,
      requiredTokenAddress := Some(inp.request.tokenIn.address), requiredAmountRaw := Some(inp.request.amountInRaw))
  }

  function SameChainSwapStep(inp: Input): Step {
    var native := Some(if inp.SourceNative() then inp.request.amountInRaw else "0");
    var out := AmountText(inp.Dexed().amountOut);
    var min := AmountText(inp.Dexed().minimumAmountOut);
    Blank("source-swap:" + inp.host.lower(inp.SwapProtocol()), SourceSwap,
          inp.request.sourceChainId, inp.SourceNumeric(), inp.SourceEnv())
    .(targetAddress := inp.SwapTarget(), calldata := inp.SwapData(),
      valueWei := Or(inp.Exec().value, native),
      requiredTokenAddress := Some(inp.request.tokenIn.address), requiredAmountRaw := Some(inp.request.amountInRaw),
      outputTokenAddress := Some(inp.request.tokenOut.address),
      expectedAmountOutRaw := out, minimumAmountOutRaw := Or(min, out))
  }

  function ConnectorAddress(inp: Input, dex: DexQuote): Option<string> {
    Or(AddressOf(inp.Connector()), AddressOf(dex.tokenOut))
  }

  function CompositeSwapStep(inp: Input, dex: DexQuote): Step {
    var out := AmountText(dex.amountOut);
    Blank("source-swap:" + inp.host.lower(dex.provider), SourceSwap,
          inp.request.sourceChainId, inp.SourceNumeric(), inp.SourceEnv())
    .(targetAddress := dex.executionTarget, calldata := dex.calldata,
      requiredTokenAddress := Some(inp.request.tokenIn.address), requiredAmountRaw := Some(inp.request.amountInRaw),
      outputTokenAddress := ConnectorAddress(inp, dex),
      expectedAmountOutRaw := out, minimumAmountOutRaw := Or(AmountText(dex.minimumAmountOut), out))
  }

  function RefreshStep(inp: Input, dex: DexQuote): Step {
    Blank("bridge-quote-refresh:" + inp.host.lower(inp.Protocol()), BridgeQuoteRefresh,
          inp.request.sourceChainId, inp.SourceNumeric(), OFF_CHAIN)
    .(requiredTokenAddress := ConnectorAddress(inp, dex), requiredAmountRaw := AmountText(dex.amountOut))
  }

  function DepositStep(inp: Input): Step {
    var native := Some(if inp.SourceNative() && inp.SourceDex().None? then inp.request.amountInRaw else "0");
    var swapped := if inp.SourceDex().Some? then AmountText(inp.SourceDex().value.amountOut) else None;
    Blank("bridge:" + inp.host.lower(inp.Protocol()), BridgeDeposit,
          inp.request.sourceChainId, inp.SourceNumeric(), inp.SourceEnv())
    .(targetAddress := inp.DepositTarget(), calldata := inp.DepositData(),
      valueWei := Or(inp.Exec().value, native),
      approvalTarget := Or(inp.Exec().approvalTarget, inp.Quoted().approvalTarget),
      requiredTokenAddress := Or(AddressOf(inp.Connector()), Some(inp.request.tokenIn.address)),
      requiredAmountRaw := Or(swapped, Some(inp.request.amountInRaw)))
  }

  function RelayStep(inp: Input): Step {
    Blank("bridge-relay-wait:" + inp.host.lower(inp.Protocol()), BridgeRelayWait,
          inp.request.destinationChainId, inp.DestNumeric(), OFF_CHAIN)
  }

  function DestSwapStep(inp: Input, dex: DexQuote): Step {
    var connector := inp.Quoted().destConnectorToken;
    Blank("destination-swap:" + inp.host.lower(dex.provider), DestinationSwap,
          inp.request.destinationChainId, inp.DestNumeric(), inp.DestEnv())
    .(targetAddress := dex.executionTarget, calldata := dex.calldata,
      requiredTokenAddress := Or(AddressOf(connector), Some(inp.request.tokenOut.address)),
      requiredAmountRaw := AmountText(dex.amountIn))
  }

  function VerifyStep(inp: Input): Step {
    if inp.CrossChain() then
      Blank("destination-verification:" + inp.request.destinationChainId, DestinationVerify,
            inp.request.destinationChainId, inp.DestNumeric(), inp.DestEnv())
    else
      Blank("destination-verification:" + inp.request.sourceChainId, DestinationVerify,
            inp.request.sourceChainId, inp.SourceNumeric(), inp.SourceEnv())
  }

  /** The nine places a step can take, in emission order; a route leaves some empty. */
  function Slot(inp: Input, k: nat): (s: Option<Step>)
    requires k < 9
    ensures s.Some? ==> s.value.kind == SlotKind(k) && SlotPrefix(k) <= s.value.id
  {
    var cross := inp.CrossChain();
    if k == 0 then Some(Blank("validation", Validation, inp.request.sourceChainId, inp.SourceNumeric(), inp.SourceEnv()))
    else if k == 1 then
      if !inp.SourceNative() && EvmOrUnstated(inp.SourceChain()) then Some(ApprovalStep(inp)) else None
    else if k == 2 then
      if !cross then Some(SameChainSwapStep(inp))
      else if inp.SourceDex().Some? then Some(CompositeSwapStep(inp, inp.SourceDex().value)) else None
    else if k == 3 then
      if cross && inp.SourceDex().Some? then Some(RefreshStep(inp, inp.SourceDex().value)) else None
    else if k == 4 then if cross then Some(DepositStep(inp)) else None
    else if k == 5 then if cross then Some(RelayStep(inp)) else None
    else if k == 6 then
      if cross && inp.DestSwapRuns() then Some(DestSwapStep(inp, inp.DestDex().value)) else None
    else if k == 7 then Some(VerifyStep(inp))
    else if cross then Some(Blank("settlement", SettlementComplete, inp.request.destinationChainId, inp.DestNumeric(), OFF_CHAIN))
    else None
  }

  function SlotKind(k: nat): StepKind
    requires k < 9
  {
    [Validation, Approval, SourceSwap, BridgeQuoteRefresh, BridgeDeposit, BridgeRelayWait,
     DestinationSwap, DestinationVerify, SettlementComplete][k]
  }

  function SlotPrefix(k: nat): string
    requires k < 9
  {
    if k == 0 then "validation" else if k == 1 then "approval:" else if k == 2 then "source-swap:"
    else if k == 3 then "bridge-q" else if k == 4 then "bridge:" else if k == 5 then "bridge-r"
    else if k == 6 then "destination-s" else if k == 7 then "destination-v" else "settlement"
  }

  function Slots(inp: Input): (slots: seq<Option<Step>>)
    ensures |slots| == 9 && forall k :: 0 <= k < 9 ==> slots[k] == Slot(inp, k)
  {
    seq(9, k requires 0 <= k < 9 => Slot(inp, k))
  }

  /** The steps of the filled slots. */
  function Present(slots: seq<Option<Step>>): seq<Step> {
    if slots == [] then []
    else Present(slots[..|slots|-1]) + (if slots[|slots|-1].Some? then [slots[|slots|-1].value] else [])
  }

  function Collect(inp: Input, k: nat): seq<Step>
    requires k <= 9
  {
    Present(Slots(inp)[..k])
  }

  lemma OneSlotMore(slots: seq<Option<Step>>, k: nat)
    requires k < |slots|
    ensures Present(slots[..k+1]) == Present(slots[..k]) + (if slots[k].Some? then [slots[k].value] else [])
  {
    assert slots[..k+1][..k] == slots[..k];
  }

  function PreviousId(steps: seq<Step>, i: nat): seq<string>
    requires i < |steps|
  {
    if i == 0 then [] else [steps[i-1].id]
  }

  /** Each step depends on exactly the one before it. */
  function Link(steps: seq<Step>): (r: seq<Step>)
    ensures |r| == |steps|
    ensures forall i {:trigger r[i]} :: 0 <= i < |steps| ==> r[i] == steps[i].(dependencies := PreviousId(steps, i))
  {
    seq(|steps|, i requires 0 <= i < |steps| => steps[i].(dependencies := PreviousId(steps, i)))
  }

  function BuiltSteps(inp: Input): seq<Step> {
    Link(Collect(inp, 9))
  }

  // ----- Executability -----

  /** The conditions under which buildPlan clears its executable flag. The same-chain branch looks at
      the target only. */
  predicate Executable(inp: Input) {
    && !inp.lookups.unsupported(inp.request.sourceChainId)
    && (inp.CrossChain() ==> !inp.lookups.unsupported(inp.request.destinationChainId))
    && (!inp.CrossChain() ==> !MissingTarget(inp.SwapTarget()))
    && (inp.CrossChain() ==>
          && (inp.SourceDex().Some? ==>
                !MissingTarget(inp.SourceDex().value.executionTarget) && !MissingCalldata(inp.SourceDex().value.calldata))
          && !MissingTarget(inp.DepositTarget()) && !MissingCalldata(inp.DepositData())
          && (inp.DestDex().Some? ==> inp.DestSwapRuns()))
    && inp.route.isExecutable != Some(false)
  }

  /** The destination swap's part in the mode; a mode the quote declares overrides it. */
  function ModeOf(inp: Input): CompositeMode {
    if inp.Quoted().compositeExecutionMode.Some? then inp.Quoted().compositeExecutionMode.value
    else if inp.DestDex().Some? then (if inp.DestSwapRuns() then Solver else Unsupported)
    else if inp.SourceDex().Some? then SeparateDestinationTx
    else Atomic
  }

  predicate SourceSwapMissing(inp: Input) {
    inp.SourceDex().Some? &&
    (MissingCalldata(inp.SourceDex().value.calldata) || MissingTarget(inp.SourceDex().value.executionTarget))
  }

  predicate DestSwapMissing(inp: Input) { inp.DestDex().Some? && !inp.DestSwapRuns() }

  function NetworkReason(inp: Input): (r: Option<string>)
    ensures r.None? <==> !inp.lookups.unsupported(inp.request.sourceChainId) && (inp.CrossChain() ==> !inp.lookups.unsupported(inp.request.destinationChainId))
    ensures r.Some? ==> r.value != ""
  {
    if inp.lookups.unsupported(inp.request.sourceChainId) then
      Some("Source network \"" + inp.request.sourceChainId + "\" capability is UNSUPPORTED")
    else if inp.CrossChain() && inp.lookups.unsupported(inp.request.destinationChainId) then
      Some("Destination network \"" + inp.request.destinationChainId + "\" capability is UNSUPPORTED")
    else None
  }

  /** The call a route without composite swaps makes: a router call on one chain, a bridge call across two. */
  function CallReason(inp: Input): (r: Option<string>)
    ensures r.None? <==>
      if inp.CrossChain() then !MissingTarget(inp.DepositTarget()) && !MissingCalldata(inp.DepositData()) else !MissingTarget(inp.SwapTarget())
    ensures r.Some? ==> r.value != ""
  {
    if inp.CrossChain() then
      if MissingTarget(inp.DepositTarget()) then Some("INVALID_EXECUTION_TARGET: Bridge contract target address is missing or zero.")
      else if MissingCalldata(inp.DepositData()) then
        Or(inp.Quoted().unexecutableReason, Some("EXECUTION_UNAVAILABLE: Bridge calldata is missing or unverified."))
      else None
    else if MissingTarget(inp.SwapTarget()) then
      Some("INVALID_EXECUTION_TARGET: DEX router target contract address is missing or zero.")
    else None
  }

  function FlagReason(inp: Input): (r: Option<string>)
    ensures r.None? <==> inp.route.isExecutable != Some(false)
    ensures r.Some? ==> r.value != ""
  {
    if inp.route.isExecutable == Some(false) then Or(inp.route.unexecutableReason, Some("ROUTE_NOT_EXECUTABLE")) else None
  }

  /** Why a plan is not executable. The swaps of a composite route speak first, the destination's
      before the source's; then the first of network, call and the route's own flag. */
  function ReasonOf(inp: Input): (r: Option<string>)
    ensures r.None? <==> Executable(inp)
    ensures r.Some? ==> r.value != ""
  {
    if inp.CrossChain() && DestSwapMissing(inp) then Some("DESTINATION_EXECUTION_UNAVAILABLE")
    else if inp.CrossChain() && SourceSwapMissing(inp) then Some("SOURCE_SWAP_UNAVAILABLE")
    else Or(NetworkReason(inp), Or(CallReason(inp), FlagReason(inp)))
  }

  function BuiltRouteType(inp: Input): RouteType {
    if inp.CrossChain() then
      (if inp.DestDex().Some? || inp.SourceDex().Some? then CrossChainComposite else CrossChainDirect)
    else (if inp.route.multiHop then MultiHop else Direct)
  }

  /** The route's id, or one made from its type and ends. */
  function BuiltRouteId(inp: Input): string {
    if inp.route.id != "" then inp.route.id
    else "route-" + inp.host.lower(PlanSeal.RouteName(BuiltRouteType(inp)))
         + "-" + inp.request.sourceChainId + "-" + inp.request.destinationChainId
  }

  function BuiltHeader(inp: Input, reason: Option<string>, mode: Option<CompositeMode>): Header {
    var dexOut := AmountText(inp.Dexed().amountOut);
    var dexMin := AmountText(inp.Dexed().minimumAmountOut);
    var dexFee := AmountText(inp.Dexed().feeAmount);
    var sourceProvider := if inp.SourceDex().Some? then Some(inp.SourceDex().value.provider) else None;
    var destProvider := if inp.DestDex().Some? then Some(inp.DestDex().value.provider) else None;
    var out := Or(dexOut, inp.Quoted().destinationAmountRaw);
    var min := Or(dexMin, inp.Quoted().minDestinationAmountRaw);
    var ccExpiry, dexExpiry := inp.Quoted().expiration, inp.Dexed().expiration;
    Header(
      inp.planId, BuiltRouteId(inp), BuiltRouteType(inp), inp.request.sourceChainId, inp.request.destinationChainId,
      inp.request.tokenIn, inp.request.tokenOut, inp.request.amountInRaw,
      if Truthy(out) then out.value else "0", if Truthy(min) then min.value else "0",
      Executable(inp), reason, mode,
      Or(Some(inp.Quoted().provider), inp.route.firstHopDex),
      Or(Some(inp.Dexed().provider), Or(sourceProvider, destProvider)),
      Or(inp.Exec().data, Or(inp.Quoted().calldata, inp.Dexed().calldata)),
      Or(inp.Exec().approvalTarget, Or(inp.Quoted().approvalTarget, inp.Dexed().approvalTarget)),
      Or(inp.Exec().to, Or(inp.Quoted().executionTarget, inp.Dexed().executionTarget)),
      if ccExpiry.Some? && ccExpiry.value != 0 then ccExpiry else dexExpiry,
      Or(inp.route.capabilityLevel, inp.Quoted().capabilityLevel),
      Or(inp.Quoted().relayerFee, Or(dexFee, Some("0"))),
      None, None,
      Extras(None, None, None, None, inp.Recipient(), None, None, None, None, None, None, None))
  }

  // ----- The builder -----

  datatype BuildResult = Built(plan: Plan) | InvalidAddress

  /** Appends a step that depends on the previous one. */
  method Push(steps: seq<Step>, prevStepId: string, s: Step) returns (r: seq<Step>, last: string)
    requires steps != [] ==> prevStepId == steps[|steps|-1].id
    ensures r == steps + [s.(dependencies := if steps == [] then [] else [prevStepId])] && last == s.id
  {
    r := steps + [s.(dependencies := if steps == [] then [] else [prevStepId])];
    last := s.id;
  }

  lemma LinkExtends(bare: seq<Step>, s: Step)
    ensures Link(bare + [s]) == Link(bare) + [s.(dependencies := if bare == [] then [] else [Link(bare)[|bare|-1].id])]
  {
    var all := bare + [s];
    forall i | 0 <= i < |bare| ensures Link(all)[i] == Link(bare)[i] {
      assert all[i] == bare[i] && PreviousId(all, i) == PreviousId(bare, i);
    }
    assert PreviousId(all, |bare|) == if bare == [] then [] else [Link(bare)[|bare|-1].id];
  }

  /** Appends the slot's step, if the slot is filled. */
  method PushSlot(slot: Option<Step>, ghost bare: seq<Step>, steps: seq<Step>, prevStepId: string) returns (r: seq<Step>, last: string)
    requires steps == Link(bare) && (steps != [] ==> prevStepId == steps[|steps|-1].id)
    ensures r == Link(bare + (if slot.Some? then [slot.value] else []))
    ensures r != [] ==> last == r[|r|-1].id
  {
    r, last := steps, prevStepId;
    if slot.Some? {
      LinkExtends(bare, slot.value);
      r, last := Push(steps, prevStepId, slot.value);
    } else {
      assert bare + [] == bare;
    }
  }

  method CheckNetworks(inp: Input) returns (isPlanExecutable: bool, reason: Option<string>)
    ensures reason == NetworkReason(inp) && isPlanExecutable == reason.None?
  {
    isPlanExecutable, reason := true, None;
    if inp.lookups.unsupported(inp.request.sourceChainId) {
      isPlanExecutable, reason := false, Some("Source network \"" + inp.request.sourceChainId + "\" capability is UNSUPPORTED");
    } else if inp.CrossChain() && inp.lookups.unsupported(inp.request.destinationChainId) {
      isPlanExecutable, reason := false, Some("Destination network \"" + inp.request.destinationChainId + "\" capability is UNSUPPORTED");
    }
  }

  /** The bridge call's target and calldata tests, which keep a reason already found. */
  method CheckBridgeCall(inp: Input, executable: bool, found: Option<string>) returns (isPlanExecutable: bool, reason: Option<string>)
    requires inp.CrossChain() && (found.Some? ==> found.value != "")
    ensures isPlanExecutable == (executable && CallReason(inp).None?) && reason == Or(found, CallReason(inp))
  {
    isPlanExecutable, reason := executable, found;
    if MissingTarget(inp.DepositTarget()) {
      isPlanExecutable := false;
      if !Truthy(reason) { reason := Some("INVALID_EXECUTION_TARGET: Bridge contract target address is missing or zero."); }
    }
    if MissingCalldata(inp.DepositData()) {
      isPlanExecutable := false;
      if !Truthy(reason) { reason := Or(inp.Quoted().unexecutableReason, Some("EXECUTION_UNAVAILABLE: Bridge calldata is missing or unverified.")); }
    }
  }

  /** The router call's target test, on a single chain. */
  method CheckRouterCall(inp: Input, executable: bool, found: Option<string>) returns (isPlanExecutable: bool, reason: Option<string>)
    requires !inp.CrossChain() && (found.Some? ==> found.value != "")
    ensures isPlanExecutable == (executable && CallReason(inp).None?) && reason == Or(found, CallReason(inp))
  {
    isPlanExecutable, reason := executable, found;
    if MissingTarget(inp.SwapTarget()) {
      isPlanExecutable := false;
      if !Truthy(reason) { reason := Some("INVALID_EXECUTION_TARGET: DEX router target contract address is missing or zero."); }
    }
  }

  /** The destination swap's branches: by the user, by a solver, or not at all. */
  method CheckDestSwap(inp: Input, mode0: CompositeMode) returns (missing: bool, mode: CompositeMode)
    ensures missing == DestSwapMissing(inp)
    ensures mode == if inp.DestDex().None? then mode0 else if missing then Unsupported
                    else if inp.Quoted().compositeExecutionMode.Some? then inp.Quoted().compositeExecutionMode.value else Solver
  {
    missing, mode := false, mode0;
    if inp.DestDex().Some? {
      var declared := inp.Quoted().compositeExecutionMode;
      assert declared.None? || declared.value.Atomic? || declared.value.Solver?
          || declared.value.SeparateDestinationTx? || declared.value.Unsupported?;
      var runs := Truthy(inp.DestDex().value.calldata) && inp.DestDex().value.calldata.value != "0x";
      if declared == Some(SeparateDestinationTx) && runs {
        mode := SeparateDestinationTx;
      } else if (declared == Some(Solver) || declared == Some(Atomic) || declared == None) && runs {
        mode := if declared == Some(Atomic) then Atomic else Solver;
      } else {
        missing, mode := true, Unsupported;
      }
    }
  }

  method BuildReason(inp: Input) returns (isPlanExecutable: bool, reason: Option<string>, mode: CompositeMode)
    ensures isPlanExecutable == Executable(inp) && reason == ReasonOf(inp)
    ensures inp.CrossChain() ==> mode == ModeOf(inp)
  {
    isPlanExecutable, reason := CheckNetworks(inp);
    mode := Atomic;
    if !inp.CrossChain() {
      isPlanExecutable, reason := CheckRouterCall(inp, isPlanExecutable, reason);
    } else {
      if inp.SourceDex().Some? {
        mode := SeparateDestinationTx;
        if SourceSwapMissing(inp) { isPlanExecutable, reason := false, Some("SOURCE_SWAP_UNAVAILABLE"); }
      }
      isPlanExecutable, reason := CheckBridgeCall(inp, isPlanExecutable, reason);
      var missing;
      missing, mode := CheckDestSwap(inp, mode);
      if missing { isPlanExecutable, reason := false, Some("DESTINATION_EXECUTION_UNAVAILABLE"); }
      if inp.Quoted().compositeExecutionMode.Some? { mode := inp.Quoted().compositeExecutionMode.value; }
    }
    if inp.route.isExecutable == Some(false) {
      isPlanExecutable := false;
      if !Truthy(reason) { reason := Or(inp.route.unexecutableReason, Some("ROUTE_NOT_EXECUTABLE")); }
    }
  }

  method BuildSteps(inp: Input) returns (steps: seq<Step>)
    ensures steps == BuiltSteps(inp)
  {
    var prevStepId := "";
    steps := [];
    for k := 0 to 9
      invariant steps == Link(Collect(inp, k))
      invariant steps != [] ==> prevStepId == steps[|steps|-1].id
    {
      OneSlotMore(Slots(inp), k);
      steps, prevStepId := PushSlot(Slots(inp)[k], Collect(inp, k), steps, prevStepId);
    }
  }

  /** The plan a build returns. */
  function BuiltPlan(inp: Input): Plan {
    PlanSeal.Sealed(inp.host,
      Plan(BuiltHeader(inp, ReasonOf(inp), if inp.CrossChain() then Some(ModeOf(inp)) else None), BuiltSteps(inp)))
  }

  method BuildPlan(inp: Input) returns (r: BuildResult)
    ensures r == if inp.AddressesValid() then Built(BuiltPlan(inp)) else InvalidAddress
  {
    if !inp.AddressesValid() { return InvalidAddress; }
    var isPlanExecutable, reason, mode := BuildReason(inp);
    var steps := BuildSteps(inp);
    var header := BuiltHeader(inp, reason, if inp.CrossChain() then Some(mode) else None);
    r := Built(PlanSeal.Sealed(inp.host, Plan(header.(isExecutable := isPlanExecutable), steps)));
  }
}
