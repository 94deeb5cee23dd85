/** What a built plan says, in the terms of the route and the request it was built from. */
module BuiltPlanLaws {
  import opened Js
  import opened PlanModel
  import opened CanonicalJson
  import opened PlanBuilder
  import opened PlanBuilderLaws

  // ----- The route, read field by field; what is absent is the empty text -----

  function Text(a: Option<string>): string { GivenOr(a, "") }

  function Digits(a: Option<int>): string { match a case Some(n) => Decimal(n) case None => "" }

  predicate Across(inp: Input) { inp.request.sourceChainId != inp.request.destinationChainId }

  predicate PaysNative(inp: Input) { inp.request.tokenIn.isNative || inp.lookups.nativeToken(inp.request.tokenIn.address) }

  predicate SwapsFirst(inp: Input) { inp.route.crossChainQuote.Some? && inp.route.crossChainQuote.value.sourceDexQuote.Some? }

  predicate SwapsLast(inp: Input) { inp.route.crossChainQuote.Some? && inp.route.crossChainQuote.value.destDexQuote.Some? }

  function FirstDex(inp: Input): DexQuote
    requires SwapsFirst(inp)
  {
    inp.route.crossChainQuote.value.sourceDexQuote.value
  }

  function LastDex(inp: Input): DexQuote
    requires SwapsLast(inp)
  {
    inp.route.crossChainQuote.value.destDexQuote.value
  }

  // A field of each part of the route.
  function ExecTo(r: Route): string { match r.execution case Some(e) => Text(e.to) case None => "" }
  function ExecData(r: Route): string { match r.execution case Some(e) => Text(e.data) case None => "" }
  function ExecValue(r: Route): string { match r.execution case Some(e) => Text(e.value) case None => "" }
  function ExecSpender(r: Route): string { match r.execution case Some(e) => Text(e.approvalTarget) case None => "" }
  function DexTo(r: Route): string { match r.dexQuote case Some(d) => Text(d.executionTarget) case None => "" }
  function DexData(r: Route): string { match r.dexQuote case Some(d) => Text(d.calldata) case None => "" }
  function DexSpender(r: Route): string { match r.dexQuote case Some(d) => Text(d.approvalTarget) case None => "" }
  function DexOut(r: Route): string { match r.dexQuote case Some(d) => Digits(d.amountOut) case None => "" }
  function DexMin(r: Route): string { match r.dexQuote case Some(d) => Digits(d.minimumAmountOut) case None => "" }
  function DexFee(r: Route): string { match r.dexQuote case Some(d) => Digits(d.feeAmount) case None => "" }
  function DexName(r: Route): string { match r.dexQuote case Some(d) => d.provider case None => "" }
  function BridgeTo(r: Route): string { match r.crossChainQuote case Some(q) => Text(q.executionTarget) case None => "" }
  function BridgeData(r: Route): string { match r.crossChainQuote case Some(q) => Text(q.calldata) case None => "" }
  function BridgeSpender(r: Route): string { match r.crossChainQuote case Some(q) => Text(q.approvalTarget) case None => "" }
  function BridgeOut(r: Route): string { match r.crossChainQuote case Some(q) => Text(q.destinationAmountRaw) case None => "" }
  function BridgeMin(r: Route): string { match r.crossChainQuote case Some(q) => Text(q.minDestinationAmountRaw) case None => "" }
  function BridgeFee(r: Route): string { match r.crossChainQuote case Some(q) => Text(q.relayerFee) case None => "" }
  function BridgeName(r: Route): string { match r.crossChainQuote case Some(q) => q.provider case None => "" }
  function BridgeLevel(r: Route): string { match r.crossChainQuote case Some(q) => Text(q.capabilityLevel) case None => "" }
  function BridgeExcuse(r: Route): string { match r.crossChainQuote case Some(q) => Text(q.unexecutableReason) case None => "" }
  function Declared(r: Route): Option<CompositeMode> { match r.crossChainQuote case Some(q) => q.compositeExecutionMode case None => None }

  function BridgeExpiry(r: Route): Option<int> { match r.crossChainQuote case Some(q) => q.expiration case None => None }
  function DexExpiry(r: Route): Option<int> { match r.dexQuote case Some(d) => d.expiration case None => None }

  /** The token a bridge takes in, if its quote names one. */
  function BridgeToken(r: Route): string {
    match r.crossChainQuote
    case Some(q) => (match q.sourceConnectorToken case Some(t) => t.address case None => "")
    case None => ""
  }

  function Either(a: string, b: string): string { if a != "" then a else b }

  // ----- The steps -----

  /** The kinds of a built plan's steps, in their order. */
  function ExpectedKinds(inp: Input): seq<StepKind> {
    var approval := if !PaysNative(inp) && ApprovesHere(inp) then [Approval] else [];
    if !Across(inp) then [Validation] + approval + [SourceSwap, DestinationVerify]
    else
      [Validation] + approval + (if SwapsFirst(inp) then [SourceSwap, BridgeQuoteRefresh] else [])
      + [BridgeDeposit, BridgeRelayWait] + (if SwapsLast(inp) && LastSwapRuns(inp) then [DestinationSwap] else [])
      + [DestinationVerify, SettlementComplete]
  }

  predicate ApprovesHere(inp: Input) {
    match inp.lookups.chain(inp.request.sourceChainId)
    case None => true
    case Some(c) => c.environment == None || c.environment == Some(EvmChain)
  }

  predicate LastSwapRuns(inp: Input)
    requires SwapsLast(inp)
  {
    Usable(Text(LastDex(inp).calldata), "0x") && Declared(inp.route) != Some(Unsupported)
  }

  /** Neither absent, empty, nor the given nothing. */
  predicate Usable(text: string, nothing: string) { text != "" && text != nothing }

  function Kinds(steps: seq<Step>): (r: seq<StepKind>)
    ensures |r| == |steps| && forall i :: 0 <= i < |steps| ==> r[i] == steps[i].kind
  {
    seq(|steps|, i requires 0 <= i < |steps| => steps[i].kind)
  }

  lemma KindsMore(steps: seq<Step>, s: Step)
    ensures Kinds(steps + [s]) == Kinds(steps) + [s.kind]
  {
  }

  lemma CollectMore(inp: Input, k: nat)
    requires k < 9
    ensures Kinds(Collect(inp, k + 1)) == Kinds(Collect(inp, k)) + (if Slot(inp, k).Some? then [SlotKind(k)] else [])
  {
    OneSlotMore(Slots(inp), k);
    if Slot(inp, k).Some? { KindsMore(Collect(inp, k), Slot(inp, k).value); } else { assert Collect(inp, k) + [] == Collect(inp, k); }
  }

  /** Which slots are filled. */
  function Fills(inp: Input): (f: seq<bool>)
    ensures |f| == 9 && forall k :: 0 <= k < 9 ==> f[k] == Slot(inp, k).Some?
  {
    seq(9, k requires 0 <= k < 9 => Slot(inp, k).Some?)
  }

  /** The kinds of the first k slots, as far as they are filled. */
  function FilledKinds(f: seq<bool>, k: nat): seq<StepKind>
    requires k <= |f| == 9
  {
    if k == 0 then [] else FilledKinds(f, k - 1) + (if f[k-1] then [SlotKind(k-1)] else [])
  }

  lemma {:induction false} CollectedKinds(inp: Input, k: nat)
    requires k <= 9
    ensures Kinds(Collect(inp, k)) == FilledKinds(Fills(inp), k)
  {
    if k == 0 {
      assert Slots(inp)[..0] == [];
    } else {
      CollectedKinds(inp, k - 1);
      CollectMore(inp, k - 1);
    }
  }

  lemma AllFilledKinds(f: seq<bool>)
    requires |f| == 9
    ensures FilledKinds(f, 4) ==
            (if f[0] then [Validation] else []) + (if f[1] then [Approval] else []) + (if f[2] then [SourceSwap] else [])
            + (if f[3] then [BridgeQuoteRefresh] else [])
    ensures FilledKinds(f, 9) ==
            FilledKinds(f, 4) + (if f[4] then [BridgeDeposit] else []) + (if f[5] then [BridgeRelayWait] else [])
            + (if f[6] then [DestinationSwap] else []) + (if f[7] then [DestinationVerify] else []) + (if f[8] then [SettlementComplete] else [])
  {
    assert FilledKinds(f, 0) == [] && FilledKinds(f, 1) == if f[0] then [Validation] else [];
    assert FilledKinds(f, 2) == (if f[0] then [Validation] else []) + (if f[1] then [Approval] else []);
    assert FilledKinds(f, 6) == FilledKinds(f, 4) + (if f[4] then [BridgeDeposit] else []) + (if f[5] then [BridgeRelayWait] else []);
    assert FilledKinds(f, 8) == FilledKinds(f, 6) + (if f[6] then [DestinationSwap] else []) + (if f[7] then [DestinationVerify] else []);
  }

  lemma EarlySlotsFilled(inp: Input)
    ensures Slot(inp, 0).Some?
    ensures Slot(inp, 1).Some? <==> !PaysNative(inp) && ApprovesHere(inp)
    ensures Slot(inp, 2).Some? <==> !Across(inp) || SwapsFirst(inp)
    ensures Slot(inp, 3).Some? <==> Across(inp) && SwapsFirst(inp)
  {
  }

  lemma LateSlotsFilled(inp: Input)
    ensures Slot(inp, 4).Some? == Slot(inp, 5).Some? == Slot(inp, 8).Some? == Across(inp)
    ensures Slot(inp, 6).Some? <==> Across(inp) && SwapsLast(inp) && LastSwapRuns(inp)
    ensures Slot(inp, 7).Some?
  {
  }

  /** The slots a route fills. */
  function ExpectedFills(inp: Input): (f: seq<bool>)
    ensures |f| == 9
  {
    [true, !PaysNative(inp) && ApprovesHere(inp), !Across(inp) || SwapsFirst(inp), Across(inp) && SwapsFirst(inp),
     Across(inp), Across(inp), Across(inp) && SwapsLast(inp) && LastSwapRuns(inp), true, Across(inp)]
  }

  lemma FillsExpected(inp: Input)
    ensures Fills(inp) == ExpectedFills(inp)
  {
    EarlySlotsFilled(inp);
    LateSlotsFilled(inp);
  }

  lemma JoinKinds(inp: Input)
    ensures FilledKinds(ExpectedFills(inp), 9) == ExpectedKinds(inp)
  {
    AllFilledKinds(ExpectedFills(inp));
  }

  /** Which steps a plan has, and in which order. */
  lemma StepsBuilt(inp: Input)
    ensures Kinds(BuiltPlan(inp).steps) == ExpectedKinds(inp)
  {
    CollectedKinds(inp, 9);
    FillsExpected(inp);
    JoinKinds(inp);
    LinkedKinds(Collect(inp, 9));
  }

  lemma LinkedKinds(bare: seq<Step>)
    ensures Kinds(Link(bare)) == Kinds(bare)
  {
    assert forall i :: 0 <= i < |bare| ==> Link(bare)[i].kind == bare[i].kind;
  }

  predicate OnChain(inp: Input, s: Step, id: string) {
    && s.chainId == id
    && s.numericChainId == (match inp.lookups.chain(id) case Some(c) => c.chainId case None => None)
  }

  /** The environment of a step that is not off chain. */
  function Runs(inp: Input, id: string): ExecutionEnvironment {
    match inp.lookups.chain(id)
    case Some(c) => if c.environment == Some(SolanaChain) then SOLANA else EVM
    case None => EVM
  }

  /** A step names no token, amount, call or value. */
  predicate CallsNothing(s: Step) {
    && s.targetAddress == None && s.calldata == None && s.valueWei == None && s.approvalTarget == None
    && s.requiredTokenAddress == None && s.requiredAmountRaw == None && StatesNoOutput(s)
  }

  predicate StatesNoOutput(s: Step) {
    s.outputTokenAddress == None && s.expectedAmountOutRaw == None && s.minimumAmountOutRaw == None
  }

  predicate Takes(s: Step, token: string, amount: string) { Text(s.requiredTokenAddress) == token && Text(s.requiredAmountRaw) == amount }

  predicate Calls(s: Step, target: string, data: string) { Text(s.targetAddress) == target && Text(s.calldata) == data }

  predicate Gives(s: Step, token: string, amount: string, minimum: string) {
    Text(s.outputTokenAddress) == token && Text(s.expectedAmountOutRaw) == amount && Text(s.minimumAmountOutRaw) == minimum
  }

  /** An approval of exactly the request's amount of its token, to whoever the route names. */
  predicate ApprovalIs(inp: Input, s: Step) {
    && s.id == "approval:source:" + inp.host.upper(inp.request.tokenIn.symbol)
    && OnChain(inp, s, inp.request.sourceChainId) && s.environment == EVM
    && Calls(s, inp.request.tokenIn.address, "") && s.valueWei == None && StatesNoOutput(s)
    && Takes(s, inp.request.tokenIn.address, inp.request.amountInRaw)
    && Text(s.approvalTarget) == Either(ExecSpender(inp.route), Either(DexSpender(inp.route), BridgeSpender(inp.route)))
  }

  /** A same-chain swap takes the request's amount, as value if it is native, and gives what the quote says;
      without a minimum of its own, the quoted output is the minimum. */
  predicate SameChainSwapIs(inp: Input, s: Step) {
    && s.id == "source-swap:" + inp.host.lower(Either(DexName(inp.route), Either(Text(inp.route.firstHopDex), "ZENITH_V3")))
    && OnChain(inp, s, inp.request.sourceChainId) && s.environment == Runs(inp, inp.request.sourceChainId)
    && Calls(s, Either(ExecTo(inp.route), DexTo(inp.route)), Either(ExecData(inp.route), DexData(inp.route))) && s.approvalTarget == None
    && s.valueWei == Some(Either(ExecValue(inp.route), if PaysNative(inp) then inp.request.amountInRaw else "0"))
    && Takes(s, inp.request.tokenIn.address, inp.request.amountInRaw)
    && Gives(s, inp.request.tokenOut.address, DexOut(inp.route), Either(DexMin(inp.route), DexOut(inp.route)))
  }

  /** A swap before the bridge takes the request's amount and gives the bridge's token. */
  predicate FirstSwapIs(inp: Input, s: Step)
    requires SwapsFirst(inp)
  {
    var dex := FirstDex(inp);
    && s.id == "source-swap:" + inp.host.lower(dex.provider)
    && OnChain(inp, s, inp.request.sourceChainId) && s.environment == Runs(inp, inp.request.sourceChainId)
    && Calls(s, Text(dex.executionTarget), Text(dex.calldata)) && s.valueWei == None && s.approvalTarget == None
    && Takes(s, inp.request.tokenIn.address, inp.request.amountInRaw)
    && Gives(s, SwappedToken(inp), Digits(dex.amountOut), Either(Digits(dex.minimumAmountOut), Digits(dex.amountOut)))
  }

  /** The token the first swap leaves: the bridge's, or else the swap's own output token. */
  function SwappedToken(inp: Input): string
    requires SwapsFirst(inp)
  {
    Either(BridgeToken(inp.route), match FirstDex(inp).tokenOut case Some(t) => t.address case None => "")
  }

  /** The bridge's name, in lower case. */
  function BridgeWord(inp: Input): string { inp.host.lower(Either(BridgeName(inp.route), "BRIDGE")) }

  predicate RefreshIs(inp: Input, s: Step)
    requires SwapsFirst(inp)
  {
    && s.id == "bridge-quote-refresh:" + BridgeWord(inp)
    && OnChain(inp, s, inp.request.sourceChainId) && s.environment == OFF_CHAIN
    && Calls(s, "", "") && s.valueWei == None && s.approvalTarget == None && StatesNoOutput(s)
    && Takes(s, SwappedToken(inp), Digits(FirstDex(inp).amountOut))
  }

  /** A deposit takes what a first swap gives, or else the request's amount, as value if it is native and
      nothing was swapped. */
  predicate DepositIs(inp: Input, s: Step) {
    && s.id == "bridge:" + BridgeWord(inp)
    && OnChain(inp, s, inp.request.sourceChainId) && s.environment == Runs(inp, inp.request.sourceChainId)
    && Calls(s, Either(ExecTo(inp.route), BridgeTo(inp.route)), Either(ExecData(inp.route), BridgeData(inp.route)))
    && s.valueWei == Some(Either(ExecValue(inp.route), if PaysNative(inp) && !SwapsFirst(inp) then inp.request.amountInRaw else "0"))
    && Text(s.approvalTarget) == Either(ExecSpender(inp.route), BridgeSpender(inp.route)) && StatesNoOutput(s)
    && Takes(s, Either(BridgeToken(inp.route), inp.request.tokenIn.address),
             Either(if SwapsFirst(inp) then Digits(FirstDex(inp).amountOut) else "", inp.request.amountInRaw))
  }

  predicate LastSwapIs(inp: Input, s: Step)
    requires SwapsLast(inp)
  {
    var connector := match inp.route.crossChainQuote.value.destConnectorToken case Some(t) => t.address case None => "";
    && s.id == "destination-swap:" + inp.host.lower(LastDex(inp).provider)
    && OnChain(inp, s, inp.request.destinationChainId) && s.environment == Runs(inp, inp.request.destinationChainId)
    && Calls(s, Text(LastDex(inp).executionTarget), Text(LastDex(inp).calldata)) && s.valueWei == None && s.approvalTarget == None
    && Takes(s, Either(connector, inp.request.tokenOut.address), Digits(LastDex(inp).amountIn)) && StatesNoOutput(s)
  }

  /** A step of a built plan, by its kind. */
  predicate StepIs(inp: Input, s: Step) {
    && s.status == NotStarted && s.txHash == None && s.error == None
    && match s.kind
       case Validation =>
         s.id == "validation" && CallsNothing(s) && OnChain(inp, s, inp.request.sourceChainId) && s.environment == Runs(inp, inp.request.sourceChainId)
       case Approval => ApprovalIs(inp, s)
       case SourceSwap => if Across(inp) then SwapsFirst(inp) && FirstSwapIs(inp, s) else SameChainSwapIs(inp, s)
       case BridgeQuoteRefresh => Across(inp) && SwapsFirst(inp) && RefreshIs(inp, s)
       case BridgeDeposit => Across(inp) && DepositIs(inp, s)
       case BridgeRelayWait =>
         && Across(inp) && s.id == "bridge-relay-wait:" + BridgeWord(inp)
         && CallsNothing(s) && OnChain(inp, s, inp.request.destinationChainId) && s.environment == OFF_CHAIN
       case DestinationSwap => Across(inp) && SwapsLast(inp) && LastSwapIs(inp, s)
       case DestinationVerify =>
         && s.id == "destination-verification:" + inp.request.destinationChainId
         && CallsNothing(s) && OnChain(inp, s, inp.request.destinationChainId) && s.environment == Runs(inp, inp.request.destinationChainId)
       case SettlementComplete =>
         && Across(inp) && s.id == "settlement"
         && CallsNothing(s) && OnChain(inp, s, inp.request.destinationChainId) && s.environment == OFF_CHAIN
       case _ => false
  }

  lemma ApprovalSlotIs(inp: Input)
    ensures StepIs(inp, ApprovalStep(inp))
  {
  }

  lemma SwapSlotIs(inp: Input)
    ensures !inp.CrossChain() ==> StepIs(inp, SameChainSwapStep(inp))
  {
  }

  lemma FirstSwapSlotIs(inp: Input)
    requires inp.CrossChain() && inp.SourceDex().Some?
    ensures StepIs(inp, CompositeSwapStep(inp, inp.SourceDex().value)) && StepIs(inp, RefreshStep(inp, inp.SourceDex().value))
  {
  }

  lemma DepositSlotIs(inp: Input)
    ensures inp.CrossChain() ==> StepIs(inp, DepositStep(inp))
  {
    CallsRead(inp);
    DepositMoves(inp);
  }

  lemma DepositMoves(inp: Input)
    ensures var s := DepositStep(inp);
            && s.valueWei == Some(Either(ExecValue(inp.route), if PaysNative(inp) && !SwapsFirst(inp) then inp.request.amountInRaw else "0"))
            && Text(s.approvalTarget) == Either(ExecSpender(inp.route), BridgeSpender(inp.route))
            && Takes(s, Either(BridgeToken(inp.route), inp.request.tokenIn.address),
                     Either(if SwapsFirst(inp) then Digits(FirstDex(inp).amountOut) else "", inp.request.amountInRaw))
  {
  }

  lemma LastSwapSlotIs(inp: Input)
    requires inp.CrossChain() && inp.DestDex().Some?
    ensures StepIs(inp, DestSwapStep(inp, inp.DestDex().value))
  {
  }

  lemma PlainSlotIs(inp: Input, k: nat)
    requires k in {0, 5, 7, 8} && Slot(inp, k).Some?
    ensures StepIs(inp, Slot(inp, k).value)
  {
  }

  lemma SlotIs(inp: Input, k: nat)
    requires k < 9 && Slot(inp, k).Some?
    ensures StepIs(inp, Slot(inp, k).value)
  {
    match k
    case 1 => ApprovalSlotIs(inp);
    case 2 => if inp.CrossChain() { FirstSwapSlotIs(inp); } else { SwapSlotIs(inp); }
    case 3 => FirstSwapSlotIs(inp);
    case 4 => DepositSlotIs(inp);
    case 6 => LastSwapSlotIs(inp);
    case _ => PlainSlotIs(inp, k);
  }

  /** Every step of a built plan says what the route and the request say, and depends on the one before it. */
  lemma StepSays(inp: Input, i: nat)
    requires i < |BuiltPlan(inp).steps|
    ensures StepIs(inp, BuiltPlan(inp).steps[i])
    ensures BuiltPlan(inp).steps[i].dependencies == if i == 0 then [] else [BuiltPlan(inp).steps[i-1].id]
  {
    var k := SlotOf(inp, i);
    SlotIs(inp, k);
    assert Slot(inp, k).value == Collect(inp, 9)[i];
    SameButDependencies(inp, Collect(inp, 9)[i], BuiltSteps(inp)[i]);
  }

  lemma SameButDependencies(inp: Input, s: Step, t: Step)
    requires t == s.(dependencies := t.dependencies) && StepIs(inp, s)
    ensures StepIs(inp, t)
  {
  }

  // ----- The header -----

  /** The route's call can be made: its target is named and not zero; a bridge's also has calldata. */
  predicate CallReady(inp: Input) {
    if Across(inp) then
      && Usable(Either(ExecTo(inp.route), BridgeTo(inp.route)), ZERO_ADDRESS)
      && Usable(Either(ExecData(inp.route), BridgeData(inp.route)), "0x")
    else Usable(Either(ExecTo(inp.route), DexTo(inp.route)), ZERO_ADDRESS)
  }

  /** The swaps a bridge route announces can be made. */
  predicate SwapsReady(inp: Input) {
    Across(inp) ==>
      && (SwapsFirst(inp) ==> Usable(Text(FirstDex(inp).executionTarget), ZERO_ADDRESS) && Usable(Text(FirstDex(inp).calldata), "0x"))
      && (SwapsLast(inp) ==> LastSwapRuns(inp))
  }

  predicate NetworksReady(inp: Input) {
    !inp.lookups.unsupported(inp.request.sourceChainId) && (Across(inp) ==> !inp.lookups.unsupported(inp.request.destinationChainId))
  }

  lemma ReadyExactly(inp: Input)
    ensures Executable(inp) <==> NetworksReady(inp) && CallReady(inp) && SwapsReady(inp) && inp.route.isExecutable != Some(false)
  {
  }

  /** The reason a plan gives for not being executable. A missing swap outranks everything else, the last
      before the first; then speak the networks, the route's call, and the route itself. */
  predicate ReasonIs(inp: Input, reason: Option<string>) {
    if Across(inp) && SwapsLast(inp) && !LastSwapRuns(inp) then reason == Some("DESTINATION_EXECUTION_UNAVAILABLE")
    else if !SwapsReady(inp) then reason == Some("SOURCE_SWAP_UNAVAILABLE")
    else if inp.lookups.unsupported(inp.request.sourceChainId) then
      reason == Some("Source network \"" + inp.request.sourceChainId + "\" capability is UNSUPPORTED")
    else if !NetworksReady(inp) then reason == Some("Destination network \"" + inp.request.destinationChainId + "\" capability is UNSUPPORTED")
    else if !CallReady(inp) then reason == Some(CallExcuse(inp))
    else if inp.route.isExecutable == Some(false) then reason == Some(Either(Text(inp.route.unexecutableReason), "ROUTE_NOT_EXECUTABLE"))
    else reason == None
  }

  function CallExcuse(inp: Input): string {
    if !Across(inp) then "INVALID_EXECUTION_TARGET: DEX router target contract address is missing or zero."
    else if !Usable(Either(ExecTo(inp.route), BridgeTo(inp.route)), ZERO_ADDRESS) then
      "INVALID_EXECUTION_TARGET: Bridge contract target address is missing or zero."
    else Either(BridgeExcuse(inp.route), "EXECUTION_UNAVAILABLE: Bridge calldata is missing or unverified.")
  }

  /** The code's tests for a missing target and missing calldata. */
  lemma MissingExactly(t: Option<string>)
    ensures MissingTarget(t) <==> !Usable(Text(t), ZERO_ADDRESS)
    ensures MissingCalldata(t) <==> !Usable(Text(t), "0x")
  {
  }

  lemma CallsRead(inp: Input)
    ensures Text(inp.SwapTarget()) == Either(ExecTo(inp.route), DexTo(inp.route))
    ensures Text(inp.DepositTarget()) == Either(ExecTo(inp.route), BridgeTo(inp.route))
    ensures Text(inp.DepositData()) == Either(ExecData(inp.route), BridgeData(inp.route))
  {
  }

  lemma CallReasonIs(inp: Input)
    ensures CallReason(inp) == if CallReady(inp) then None else Some(CallExcuse(inp))
  {
    CallsRead(inp);
    MissingExactly(inp.SwapTarget());
    MissingExactly(inp.DepositTarget());
    MissingExactly(inp.DepositData());
    ExcuseRead(inp);
  }

  lemma ExcuseRead(inp: Input)
    ensures Or(inp.Quoted().unexecutableReason, Some("EXECUTION_UNAVAILABLE: Bridge calldata is missing or unverified."))
            == Some(Either(BridgeExcuse(inp.route), "EXECUTION_UNAVAILABLE: Bridge calldata is missing or unverified."))
  {
  }

  lemma SwapsMissing(inp: Input)
    requires Across(inp)
    ensures DestSwapMissing(inp) <==> SwapsLast(inp) && !LastSwapRuns(inp)
    ensures DestSwapMissing(inp) || SourceSwapMissing(inp) <==> !SwapsReady(inp)
  {
  }

  lemma ReasonExactly(inp: Input)
    ensures ReasonIs(inp, ReasonOf(inp))
  {
    if Across(inp) { SwapsMissing(inp); }
    if SwapsReady(inp) { LaterReasons(inp); }
  }

  lemma LaterReasons(inp: Input)
    requires SwapsReady(inp)
    ensures ReasonIs(inp, Or(NetworkReason(inp), Or(CallReason(inp), FlagReason(inp))))
  {
    CallReasonIs(inp);
  }

  /** The mode a bridge route runs in: the declared one, or what its swaps call for. */
  function ModeFor(inp: Input): Option<CompositeMode> {
    if !Across(inp) then None
    else if Declared(inp.route) != None then Declared(inp.route)
    else if SwapsLast(inp) then Some(if LastSwapRuns(inp) then Solver else Unsupported)
    else if SwapsFirst(inp) then Some(SeparateDestinationTx)
    else Some(Atomic)
  }

  /** Amounts: what the request pays, and what the route's quote promises, the DEX's before the bridge's. */
  predicate AmountsSay(inp: Input, h: Header) {
    && h.expectedAmountInRaw == inp.request.amountInRaw
    && h.expectedAmountOutRaw == Either(DexOut(inp.route), Either(BridgeOut(inp.route), "0"))
    && h.minimumAmountOutRaw == Either(DexMin(inp.route), Either(BridgeMin(inp.route), "0"))
    && Text(h.totalFeeRaw) == Either(BridgeFee(inp.route), Either(DexFee(inp.route), "0"))
  }

  function RouteWord(inp: Input): string {
    if !Across(inp) then (if inp.route.multiHop then "MULTI_HOP" else "DIRECT")
    else if SwapsFirst(inp) || SwapsLast(inp) then "CROSS_CHAIN_COMPOSITE" else "CROSS_CHAIN_DIRECT"
  }

  predicate RouteSays(inp: Input, h: Header) {
    && h.planId == inp.planId
    && h.sourceChainId == inp.request.sourceChainId && h.destinationChainId == inp.request.destinationChainId
    && h.tokenIn == inp.request.tokenIn && h.tokenOut == inp.request.tokenOut
    && h.routeType == (if Across(inp) then (if SwapsFirst(inp) || SwapsLast(inp) then CrossChainComposite else CrossChainDirect)
                       else if inp.route.multiHop then MultiHop else Direct)
    && h.routeId == Either(inp.route.id, "route-" + inp.host.lower(RouteWord(inp)) + "-" + inp.request.sourceChainId + "-" + inp.request.destinationChainId)
    && h.compositeExecutionMode == ModeFor(inp)
  }

  predicate CallSays(inp: Input, h: Header) {
    && Text(h.executionTarget) == Either(ExecTo(inp.route), Either(BridgeTo(inp.route), DexTo(inp.route)))
    && Text(h.calldata) == Either(ExecData(inp.route), Either(BridgeData(inp.route), DexData(inp.route)))
    && Text(h.approvalTarget) == Either(ExecSpender(inp.route), Either(BridgeSpender(inp.route), DexSpender(inp.route)))
  }

  predicate PartiesSay(inp: Input, h: Header) {
    && Text(h.selectedProvider) == Either(BridgeName(inp.route), Text(inp.route.firstHopDex))
    && Text(h.selectedDex) == Either(DexName(inp.route), Either(if SwapsFirst(inp) then FirstDex(inp).provider else "",
                                                                if SwapsLast(inp) then LastDex(inp).provider else ""))
    && Text(h.capabilityEvidence) == Either(Text(inp.route.capabilityLevel), BridgeLevel(inp.route))
    && Text(h.extras.recipient) ==
         Either(Text(inp.request.recipientAddress), Either(Text(inp.request.userWalletAddress), Either(Text(inp.recipientOption), Text(inp.userAddress))))
    && h.extras == Extras(None, None, None, None, h.extras.recipient, None, None, None, None, None, None, None)
    && h.expiration == (if BridgeExpiry(inp.route) != None && BridgeExpiry(inp.route) != Some(0) then BridgeExpiry(inp.route) else DexExpiry(inp.route))
  }

  lemma AmountsStated(inp: Input, reason: Option<string>, mode: Option<CompositeMode>)
    ensures AmountsSay(inp, BuiltHeader(inp, reason, mode))
  {
  }

  lemma RouteStated(inp: Input, reason: Option<string>)
    ensures RouteSays(inp, BuiltHeader(inp, reason, if inp.CrossChain() then Some(ModeOf(inp)) else None))
  {
  }

  lemma CallStated(inp: Input, reason: Option<string>, mode: Option<CompositeMode>)
    ensures CallSays(inp, BuiltHeader(inp, reason, mode))
  {
  }

  lemma PartiesStated(inp: Input, reason: Option<string>, mode: Option<CompositeMode>)
    ensures PartiesSay(inp, BuiltHeader(inp, reason, mode))
  {
  }

  /** Sealing adds the hashes to the header, and nothing else. */
  lemma SealedHeader(inp: Input)
    ensures var h := BuiltHeader(inp, ReasonOf(inp), if inp.CrossChain() then Some(ModeOf(inp)) else None);
            BuiltPlan(inp).header == h.(integrityHash := BuiltPlan(inp).header.integrityHash, planHash := BuiltPlan(inp).header.planHash)
  {
  }

  lemma SameWords(inp: Input, g: Header, h: Header)
    requires h == g.(integrityHash := h.integrityHash, planHash := h.planHash)
    ensures RouteSays(inp, g) == RouteSays(inp, h) && AmountsSay(inp, g) == AmountsSay(inp, h)
    ensures CallSays(inp, g) == CallSays(inp, h) && PartiesSay(inp, g) == PartiesSay(inp, h)
  {
  }

  lemma WordsOfHeader(inp: Input)
    ensures var h := BuiltPlan(inp).header; RouteSays(inp, h) && AmountsSay(inp, h) && CallSays(inp, h) && PartiesSay(inp, h)
  {
    var reason, mode := ReasonOf(inp), if inp.CrossChain() then Some(ModeOf(inp)) else None;
    RouteStated(inp, reason);
    AmountsStated(inp, reason, mode);
    CallStated(inp, reason, mode);
    PartiesStated(inp, reason, mode);
    SealedHeader(inp);
    SameWords(inp, BuiltHeader(inp, reason, mode), BuiltPlan(inp).header);
  }

  lemma FlagOfHeader(inp: Input)
    ensures BuiltPlan(inp).header.isExecutable == Executable(inp) && BuiltPlan(inp).header.unexecutableReason == ReasonOf(inp)
  {
  }

  /** A built plan's header says what the route and the request say, whether it is executable, and if not, why. */
  lemma HeaderSays(inp: Input)
    ensures var h := BuiltPlan(inp).header;
            && RouteSays(inp, h) && AmountsSay(inp, h) && CallSays(inp, h) && PartiesSay(inp, h)
            && (h.isExecutable <==> NetworksReady(inp) && CallReady(inp) && SwapsReady(inp) && inp.route.isExecutable != Some(false))
            && ReasonIs(inp, h.unexecutableReason)
  {
    WordsOfHeader(inp);
    FlagOfHeader(inp);
    ReadyExactly(inp);
    ReasonExactly(inp);
  }

  // ----- How the amounts hang together -----

  /** What flows: an approval covers what the plan pays; a first swap pays that, and what it promises is what
      the refresh asks for and the deposit takes; a deposit with nothing before it takes what the plan pays. */
  lemma AmountsFlow(inp: Input, i: nat, j: nat)
    requires i < |BuiltPlan(inp).steps| && j < |BuiltPlan(inp).steps|
    ensures var p := BuiltPlan(inp);
            && (p.steps[i].kind in {Approval, SourceSwap} ==>
                  Text(p.steps[i].requiredAmountRaw) == p.header.expectedAmountInRaw
                  && Text(p.steps[i].requiredTokenAddress) == p.header.tokenIn.address)
            && (p.steps[i].kind == BridgeDeposit && !SwapsFirst(inp) ==> Text(p.steps[i].requiredAmountRaw) == p.header.expectedAmountInRaw)
            && (p.steps[i].kind == SourceSwap && p.steps[j].kind == BridgeQuoteRefresh ==>
                  Text(p.steps[j].requiredAmountRaw) == Text(p.steps[i].expectedAmountOutRaw)
                  && Text(p.steps[j].requiredTokenAddress) == Text(p.steps[i].outputTokenAddress))
            && (p.steps[i].kind == SourceSwap && p.steps[j].kind == BridgeDeposit && Text(p.steps[i].expectedAmountOutRaw) != "" ==>
                  Text(p.steps[j].requiredAmountRaw) == Text(p.steps[i].expectedAmountOutRaw))
  {
    StepSays(inp, i);
    StepSays(inp, j);
    WordsOfHeader(inp);
  }
}
