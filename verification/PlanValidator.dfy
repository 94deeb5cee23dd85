/** validatePlan and validateCompositePlan. */
module PlanValidator {
  import opened Js
  import opened PlanModel
  import PlanGraph
  import KahnOrder
  import PlanSeal

  datatype ValidationError =
    | IntegrityBreach
    | InvalidField
    | InvalidGraph(graphError: PlanGraph.GraphError)
    | ChainMismatch | TokenMismatch | AmountMismatch
    | MinimumExceedsExpected | MalformedAmount | SwapNotBeforeDeposit

  // ----- What the composite check promises about a swap feeding a deposit -----

  predicate TokensAgree(host: Host, swap: Step, deposit: Step) {
    Truthy(swap.outputTokenAddress) && Truthy(deposit.requiredTokenAddress) ==>
      host.lower(swap.outputTokenAddress.value) == host.lower(deposit.requiredTokenAddress.value)
  }

  predicate AmountsAgree(swap: Step, deposit: Step) {
    Truthy(swap.expectedAmountOutRaw) && Truthy(deposit.requiredAmountRaw) ==>
      swap.expectedAmountOutRaw == deposit.requiredAmountRaw
  }

  predicate MinimumWithin(host: Host, swap: Step) {
    Truthy(swap.minimumAmountOutRaw) && Truthy(swap.expectedAmountOutRaw) ==>
      var min, out := host.bigInt(swap.minimumAmountOutRaw.value), host.bigInt(swap.expectedAmountOutRaw.value);
      min.Some? && out.Some? && min.value <= out.value
  }

  /** Both steps are in the execution order, the swap first. */
  ghost predicate OrderedBefore(steps: seq<Step>, swap: Step, deposit: Step) {
    && PlanGraph.Valid(Graph(steps))
    && exists i, j :: 0 <= i < j < |steps| && i < |KahnOrder.TopologicalOrder(Graph(steps))|
                   && j < |KahnOrder.TopologicalOrder(Graph(steps))|
                   && KahnOrder.TopologicalOrder(Graph(steps))[i] == swap.id
                   && KahnOrder.TopologicalOrder(Graph(steps))[j] == deposit.id
  }

  ghost predicate CompositeOk(host: Host, p: Plan) {
    var s, d := FindKind(p.steps, SourceSwap), FindKind(p.steps, BridgeDeposit);
    s.Some? && d.Some? ==>
      var swap, deposit := p.steps[s.value], p.steps[d.value];
      && swap.chainId == deposit.chainId == p.header.sourceChainId
      && TokensAgree(host, swap, deposit)
      && AmountsAgree(swap, deposit)
      && MinimumWithin(host, swap)
      && OrderedBefore(p.steps, swap, deposit)
  }

  /** On a valid graph every step has one place in the order. */
  lemma PlaceInOrder(steps: seq<Step>, i: nat)
    requires PlanGraph.Valid(Graph(steps)) && i < |steps|
    ensures steps[i].id in KahnOrder.TopologicalOrder(Graph(steps))
    ensures |KahnOrder.TopologicalOrder(Graph(steps))| == |steps|
    ensures Distinct(KahnOrder.TopologicalOrder(Graph(steps)))
  {
    var g := Graph(steps);
    KahnOrder.OrderIsPermutation(g);
    assert PlanGraph.Ids(g)[i] == steps[i].id;
    assert steps[i].id in multiset(KahnOrder.TopologicalOrder(g));
  }

  method ValidateCompositePlan(host: Host, p: Plan) returns (error: Option<ValidationError>)
    ensures error.None? <==> CompositeOk(host, p)
  {
    var s, d := FindKind(p.steps, SourceSwap), FindKind(p.steps, BridgeDeposit);
    if s.None? || d.None? { return None; }
    var swap, deposit := p.steps[s.value], p.steps[d.value];
    if swap.chainId != deposit.chainId { return Some(ChainMismatch); }
    if swap.chainId != p.header.sourceChainId { return Some(ChainMismatch); }
    if Truthy(swap.outputTokenAddress) && Truthy(deposit.requiredTokenAddress) {
      if host.lower(swap.outputTokenAddress.value) != host.lower(deposit.requiredTokenAddress.value) {
        return Some(TokenMismatch);
      }
    }
    if Truthy(swap.expectedAmountOutRaw) && Truthy(deposit.requiredAmountRaw) {
      if swap.expectedAmountOutRaw.value != deposit.requiredAmountRaw.value { return Some(AmountMismatch); }
    }
    if Truthy(swap.minimumAmountOutRaw) && Truthy(swap.expectedAmountOutRaw) {
      var min, out := host.bigInt(swap.minimumAmountOutRaw.value), host.bigInt(swap.expectedAmountOutRaw.value);
      if min.None? || out.None? { return Some(MalformedAmount); }
      if min.value > out.value { return Some(MinimumExceedsExpected); }
    }
    var order := KahnOrder.GetTopologicalOrder(Graph(p.steps));
    if order.Rejected? { return Some(InvalidGraph(order.error)); }
    PlaceInOrder(p.steps, s.value);
    PlaceInOrder(p.steps, d.value);
    var i, j := IndexOf(order.order, swap.id), IndexOf(order.order, deposit.id);
    if i >= j { return Some(SwapNotBeforeDeposit); }
    error := None;
  }

  // ----- Fields -----

  /** BigInt parses the text, to at least min. */
  predicate ReadsAtLeast(host: Host, text: string, min: int) {
    host.bigInt(text).Some? && host.bigInt(text).value >= min
  }

  /** The header fields validatePlan tests one by one. */
  predicate HeaderOk(host: Host, lookups: Lookups, h: Header) {
    && !IsBlank(h.planId) && !IsBlank(h.routeId)
    && h.sourceChainId != "" && lookups.chain(h.sourceChainId).Some?
    && h.destinationChainId != "" && lookups.chain(h.destinationChainId).Some?
    && h.tokenIn.address != "" && h.tokenIn.symbol != "" && h.tokenOut.address != "" && h.tokenOut.symbol != ""
    && lookups.tokenAddress(h.tokenIn.address, h.sourceChainId, h.tokenIn.isNative)
    && lookups.tokenAddress(h.tokenOut.address, h.destinationChainId, h.tokenOut.isNative)
    && h.expectedAmountInRaw != "" && ReadsAtLeast(host, h.expectedAmountInRaw, 1)
    && h.expectedAmountOutRaw != "" && ReadsAtLeast(host, h.expectedAmountOutRaw, 1)
    && h.minimumAmountOutRaw != "" && ReadsAtLeast(host, h.minimumAmountOutRaw, 0)
    && (!h.isExecutable ==> h.unexecutableReason.Some? && !IsBlank(h.unexecutableReason.value))
  }

  method ValidateHeader(host: Host, lookups: Lookups, h: Header) returns (ok: bool)
    ensures ok <==> HeaderOk(host, lookups, h)
  {
    if h.planId == "" || IsBlank(h.planId) { return false; }
    if h.routeId == "" || IsBlank(h.routeId) { return false; }
    if h.sourceChainId == "" || lookups.chain(h.sourceChainId).None? { return false; }
    if h.destinationChainId == "" || lookups.chain(h.destinationChainId).None? { return false; }
    if h.tokenIn.address == "" || h.tokenIn.symbol == "" { return false; }
    if h.tokenOut.address == "" || h.tokenOut.symbol == "" { return false; }
    if !lookups.tokenAddress(h.tokenIn.address, h.sourceChainId, h.tokenIn.isNative) { return false; }
    if !lookups.tokenAddress(h.tokenOut.address, h.destinationChainId, h.tokenOut.isNative) { return false; }
    if h.expectedAmountInRaw == "" || !ReadsAtLeast(host, h.expectedAmountInRaw, 1) { return false; }
    if h.expectedAmountOutRaw == "" || !ReadsAtLeast(host, h.expectedAmountOutRaw, 1) { return false; }
    if h.minimumAmountOutRaw == "" || !ReadsAtLeast(host, h.minimumAmountOutRaw, 0) { return false; }
    ok := h.isExecutable || (Truthy(h.unexecutableReason) && !IsBlank(h.unexecutableReason.value));
  }

  // ----- Steps -----

  predicate OnSource(k: StepKind) { k in {SourceSwap, Approval, SourceApproval, BridgeDeposit, BridgeQuoteRefresh} }
  predicate OnDestination(k: StepKind) { k in {DestinationSwap, DestinationApproval, DestinationVerify} }
  predicate MovesValue(k: StepKind) { k in {SourceSwap, BridgeDeposit, DestinationSwap} }
  predicate Approves(k: StepKind) { k in {Approval, SourceApproval, DestinationApproval} }

  /** A step runs on a known chain, in that chain's environment, on its own side of the route. */
  predicate PlaceOk(lookups: Lookups, s: Step, h: Header) {
    && !IsBlank(s.id) && s.chainId != "" && lookups.chain(s.chainId).Some?
    && (s.environment == OFF_CHAIN || s.environment == EnvOf(lookups.chain(s.chainId)))
    && (OnSource(s.kind) ==> s.chainId == h.sourceChainId)
    && (OnDestination(s.kind) ==> s.chainId == h.destinationChainId)
  }

  predicate HexData(c: string) { "0x" <= c && |c| >= 4 }

  /** The call of a value-moving EVM step can be sent. */
  predicate CallOk(host: Host, lookups: Lookups, s: Step) {
    && !MissingTarget(s.targetAddress) && lookups.evmAddress(s.targetAddress.value)
    && !MissingCalldata(s.calldata) && HexData(s.calldata.value)
    && (s.valueWei.Some? ==> ReadsAtLeast(host, s.valueWei.value, 0))
  }

  predicate ApprovalOk(host: Host, lookups: Lookups, s: Step) {
    && !MissingTarget(s.requiredTokenAddress) && lookups.tokenAddress(s.requiredTokenAddress.value, s.chainId, false)
    && !MissingTarget(s.approvalTarget) && lookups.evmAddress(s.approvalTarget.value)
    && Truthy(s.requiredAmountRaw) && ReadsAtLeast(host, s.requiredAmountRaw.value, 1)
  }

  /** validateStep does not throw. Calls are looked at only in plans that claim to be executable. */
  predicate StepOk(host: Host, lookups: Lookups, s: Step, h: Header) {
    && PlaceOk(lookups, s, h)
    && (h.isExecutable && MovesValue(s.kind) && s.environment == EVM ==> CallOk(host, lookups, s))
    && (Approves(s.kind) ==> ApprovalOk(host, lookups, s))
  }

  method ValidateStep(host: Host, lookups: Lookups, s: Step, h: Header) returns (ok: bool)
    ensures ok <==> StepOk(host, lookups, s, h)
  {
    if s.id == "" || IsBlank(s.id) { return false; }
    var chain := lookups.chain(s.chainId);
    if s.chainId == "" || chain.None? { return false; }
    if s.environment != OFF_CHAIN {
      var expectedEnv := if chain.value.environment == Some(SolanaChain) then SOLANA else EVM;
      if s.environment != expectedEnv { return false; }
    }
    if OnSource(s.kind) && s.chainId != h.sourceChainId { return false; }
    if OnDestination(s.kind) && s.chainId != h.destinationChainId { return false; }
    if h.isExecutable && MovesValue(s.kind) && s.environment == EVM {
      if !Truthy(s.targetAddress) || s.targetAddress.value == ZERO_ADDRESS { return false; }
      if !lookups.evmAddress(s.targetAddress.value) { return false; }
      if !Truthy(s.calldata) || s.calldata.value == "0x" || !("0x" <= s.calldata.value) || |s.calldata.value| < 4 { return false; }
      if s.valueWei.Some? && !ReadsAtLeast(host, s.valueWei.value, 0) { return false; }
    }
    if Approves(s.kind) {
      if !Truthy(s.requiredTokenAddress) || s.requiredTokenAddress.value == ZERO_ADDRESS { return false; }
      if !lookups.tokenAddress(s.requiredTokenAddress.value, s.chainId, false) { return false; }
      if !Truthy(s.approvalTarget) || s.approvalTarget.value == ZERO_ADDRESS { return false; }
      if !lookups.evmAddress(s.approvalTarget.value) { return false; }
      if !Truthy(s.requiredAmountRaw) || !ReadsAtLeast(host, s.requiredAmountRaw.value, 1) { return false; }
    }
    ok := true;
  }

  ghost predicate StepsOk(host: Host, lookups: Lookups, p: Plan) {
    forall i :: 0 <= i < |p.steps| ==> StepOk(host, lookups, p.steps[i], p.header)
  }

  method ValidateSteps(host: Host, lookups: Lookups, p: Plan) returns (ok: bool)
    ensures ok <==> StepsOk(host, lookups, p)
  {
    for i := 0 to |p.steps|
      invariant forall j :: 0 <= j < i ==> StepOk(host, lookups, p.steps[j], p.header)
    {
      ok := ValidateStep(host, lookups, p.steps[i], p.header);
      if !ok { return; }
    }
    ok := true;
  }

  // ----- The whole validator -----

  /** validatePlan accepts: the seal holds, header and steps are in order, the graph is valid, and a
      plan with a swap feeding a deposit is a coherent composite. */
  ghost predicate Accepted(host: Host, lookups: Lookups, p: Plan) {
    && PlanSeal.VerifyIntegrity(host, p, None)
    && HeaderOk(host, lookups, p.header) && p.steps != [] && StepsOk(host, lookups, p)
    && PlanGraph.Valid(Graph(p.steps))
    && CompositeOk(host, p)
  }

  /** The composite check is skipped only when it would find nothing to compare, so passing the
      validator always includes it. */
  method ValidatePlan(host: Host, lookups: Lookups, p: Plan) returns (error: Option<ValidationError>)
    ensures error.None? <==> Accepted(host, lookups, p)
  {
    if !PlanSeal.VerifyIntegrity(host, p, None) { return Some(IntegrityBreach); }
    var headerOk := ValidateHeader(host, lookups, p.header);
    if !headerOk || p.steps == [] { return Some(InvalidField); }
    var stepsOk := ValidateSteps(host, lookups, p);
    if !stepsOk { return Some(InvalidField); }
    var graphError := PlanGraph.ValidateDependencyGraph(Graph(p.steps));
    if graphError.Some? { return Some(InvalidGraph(graphError.value)); }
    var both := FindKind(p.steps, SourceSwap).Some? && FindKind(p.steps, BridgeDeposit).Some?;
    if p.header.routeType == CrossChainComposite || both {
      error := ValidateCompositePlan(host, p);
    } else {
      error := None;
    }
  }

  /** In an accepted plan's order, the first swap has a smaller place than the first deposit,
      wherever either occurs. */
  lemma SwapPlacedBeforeDeposit(host: Host, lookups: Lookups, p: Plan, i: nat, j: nat)
    requires Accepted(host, lookups, p)
    requires FindKind(p.steps, SourceSwap).Some? && FindKind(p.steps, BridgeDeposit).Some?
    requires i < |KahnOrder.TopologicalOrder(Graph(p.steps))| && j < |KahnOrder.TopologicalOrder(Graph(p.steps))|
    requires KahnOrder.TopologicalOrder(Graph(p.steps))[i] == p.steps[FindKind(p.steps, SourceSwap).value].id
    requires KahnOrder.TopologicalOrder(Graph(p.steps))[j] == p.steps[FindKind(p.steps, BridgeDeposit).value].id
    ensures i < j
  {
    KahnOrder.OrderIsPermutation(Graph(p.steps));
  }
}
