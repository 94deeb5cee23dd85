/** What an accepted plan satisfies, field by field, and that nothing else is asked of it. */
module ValidatorLaws {
  import opened Js
  import opened PlanModel
  import opened PlanValidator
  import PlanGraph
  import PlanSeal
  import KahnOrder

  // ----- The words of the rules -----

  predicate Given(a: Option<string>) { a != None && a != Some("") }

  predicate HasInk(text: string) { exists i :: 0 <= i < |text| && !IsSpace(text[i]) }

  predicate KnownChain(lookups: Lookups, id: string) { id != "" && lookups.chain(id) != None }

  /** A positive (least 1) or non-negative (least 0) integer text. */
  predicate Integer(host: Host, text: string, least: int) {
    text != "" && match host.bigInt(text) case Some(n) => n >= least case None => false
  }

  predicate Address(lookups: Lookups, a: Option<string>) {
    Given(a) && a != Some(ZERO_ADDRESS) && lookups.evmAddress(a.value)
  }

  predicate HexCall(c: Option<string>) {
    c.Some? && |c.value| >= 4 && c.value[0] == '0' && c.value[1] == 'x'
  }

  predicate TokenNamed(lookups: Lookups, t: Token, chain: string) {
    t.address != "" && t.symbol != "" && lookups.tokenAddress(t.address, chain, t.isNative)
  }

  // ----- The rules for a step, one kind at a time -----

  /** Where a step may run. */
  predicate InPlace(lookups: Lookups, s: Step, h: Header) {
    && HasInk(s.id) && KnownChain(lookups, s.chainId)
    && (s.environment == SOLANA ==> lookups.chain(s.chainId).value.environment == Some(SolanaChain))
    && (s.environment == EVM ==> lookups.chain(s.chainId).value.environment != Some(SolanaChain))
    && (match s.kind
        case SourceSwap => s.chainId == h.sourceChainId
        case Approval => s.chainId == h.sourceChainId
        case SourceApproval => s.chainId == h.sourceChainId
        case BridgeDeposit => s.chainId == h.sourceChainId
        case BridgeQuoteRefresh => s.chainId == h.sourceChainId
        case DestinationSwap => s.chainId == h.destinationChainId
        case DestinationApproval => s.chainId == h.destinationChainId
        case DestinationVerify => s.chainId == h.destinationChainId
        case Validation => true
        case BridgeRelayWait => true
        case SettlementComplete => true)
  }

  /** The call of a step that moves value. */
  predicate Sendable(host: Host, lookups: Lookups, s: Step) {
    && Address(lookups, s.targetAddress) && HexCall(s.calldata)
    && (s.valueWei != None ==> host.bigInt(s.valueWei.value) != None && host.bigInt(s.valueWei.value).value >= 0)
  }

  predicate Approvable(host: Host, lookups: Lookups, s: Step) {
    && Given(s.requiredTokenAddress) && s.requiredTokenAddress != Some(ZERO_ADDRESS)
    && lookups.tokenAddress(s.requiredTokenAddress.value, s.chainId, false)
    && Address(lookups, s.approvalTarget)
    && s.requiredAmountRaw != None && Integer(host, s.requiredAmountRaw.value, 1)
  }

  predicate StepInOrder(host: Host, lookups: Lookups, s: Step, h: Header) {
    && InPlace(lookups, s, h)
    && (match s.kind
        case SourceSwap => h.isExecutable && s.environment == EVM ==> Sendable(host, lookups, s)
        case BridgeDeposit => h.isExecutable && s.environment == EVM ==> Sendable(host, lookups, s)
        case DestinationSwap => h.isExecutable && s.environment == EVM ==> Sendable(host, lookups, s)
        case Approval => Approvable(host, lookups, s)
        case SourceApproval => Approvable(host, lookups, s)
        case DestinationApproval => Approvable(host, lookups, s)
        case _ => true)
  }

  /** The step check is these rules, no more and no less. */
  lemma StepRulesExactly(host: Host, lookups: Lookups, s: Step, h: Header)
    ensures StepOk(host, lookups, s, h) <==> StepInOrder(host, lookups, s, h)
  {
    BlankExactly(s.id);
    PlacesExactly(lookups, s, h);
    CallsExactly(host, lookups, s);
  }

  lemma BlankExactly(text: string)
    ensures IsBlank(text) <==> !HasInk(text)
  {
  }

  lemma PlacesExactly(lookups: Lookups, s: Step, h: Header)
    ensures PlaceOk(lookups, s, h) <==> InPlace(lookups, s, h)
  {
    BlankExactly(s.id);
  }

  lemma CallsExactly(host: Host, lookups: Lookups, s: Step)
    ensures CallOk(host, lookups, s) <==> Sendable(host, lookups, s)
    ensures ApprovalOk(host, lookups, s) <==> Approvable(host, lookups, s)
  {
    if s.calldata.Some? { HexExactly(s.calldata.value); }
  }

  lemma HexExactly(c: string)
    ensures c != "" && c != "0x" && HexData(c) <==> HexCall(Some(c))
  {
  }

  // ----- The rules for a plan -----

  predicate HeaderInOrder(host: Host, lookups: Lookups, h: Header) {
    && HasInk(h.planId) && HasInk(h.routeId)
    && KnownChain(lookups, h.sourceChainId) && KnownChain(lookups, h.destinationChainId)
    && TokenNamed(lookups, h.tokenIn, h.sourceChainId) && TokenNamed(lookups, h.tokenOut, h.destinationChainId)
    && Integer(host, h.expectedAmountInRaw, 1) && Integer(host, h.expectedAmountOutRaw, 1) && Integer(host, h.minimumAmountOutRaw, 0)
    && (h.isExecutable || (h.unexecutableReason.Some? && HasInk(h.unexecutableReason.value)))
  }

  lemma HeaderRulesExactly(host: Host, lookups: Lookups, h: Header)
    ensures HeaderOk(host, lookups, h) <==> HeaderInOrder(host, lookups, h)
  {
    BlankExactly(h.planId);
    BlankExactly(h.routeId);
    if h.unexecutableReason.Some? { BlankExactly(h.unexecutableReason.value); }
  }

  /** The first step of a kind. */
  predicate FirstOf(steps: seq<Step>, kind: StepKind, i: int) {
    0 <= i < |steps| && steps[i].kind == kind && forall k :: 0 <= k < i ==> steps[k].kind != kind
  }

  /** The first swap feeds the first deposit: on the source chain, in the deposit's token, of the deposit's
      amount, with a minimum within its output, and before it in the execution order. */
  ghost predicate Feeds(host: Host, p: Plan, i: int, j: int)
    requires 0 <= i < |p.steps| && 0 <= j < |p.steps|
  {
    var swap, deposit := p.steps[i], p.steps[j];
    var order := KahnOrder.TopologicalOrder(Graph(p.steps));
    && swap.chainId == p.header.sourceChainId && deposit.chainId == p.header.sourceChainId
    && (Given(swap.outputTokenAddress) && Given(deposit.requiredTokenAddress) ==>
          host.lower(swap.outputTokenAddress.value) == host.lower(deposit.requiredTokenAddress.value))
    && (Given(swap.expectedAmountOutRaw) && Given(deposit.requiredAmountRaw) ==> swap.expectedAmountOutRaw == deposit.requiredAmountRaw)
    && (Given(swap.minimumAmountOutRaw) && Given(swap.expectedAmountOutRaw) ==>
          match (host.bigInt(swap.minimumAmountOutRaw.value), host.bigInt(swap.expectedAmountOutRaw.value))
          case (Some(min), Some(out)) => min <= out
          case _ => false)
    && exists a, b :: 0 <= a < b < |order| && order[a] == swap.id && order[b] == deposit.id
  }

  ghost predicate PlanInOrder(host: Host, lookups: Lookups, p: Plan) {
    && (Given(p.header.integrityHash) ==> p.header.integrityHash == Some(PlanSeal.Hash(host, p)))
    && (!Given(p.header.integrityHash) && Given(p.header.planHash) ==> p.header.planHash == Some(PlanSeal.Hash(host, p)))
    && HeaderInOrder(host, lookups, p.header)
    && |p.steps| > 0 && (forall i :: 0 <= i < |p.steps| ==> StepInOrder(host, lookups, p.steps[i], p.header))
    && PlanGraph.Valid(Graph(p.steps))
    && (forall i, j :: FirstOf(p.steps, SourceSwap, i) && FirstOf(p.steps, BridgeDeposit, j) ==> Feeds(host, p, i, j))
  }

  lemma CompositeExactly(host: Host, p: Plan)
    requires PlanGraph.Valid(Graph(p.steps))
    ensures CompositeOk(host, p) <==>
            forall i, j :: FirstOf(p.steps, SourceSwap, i) && FirstOf(p.steps, BridgeDeposit, j) ==> Feeds(host, p, i, j)
  {
    KahnOrder.OrderIsPermutation(Graph(p.steps));
    var s, d := FindKind(p.steps, SourceSwap), FindKind(p.steps, BridgeDeposit);
    if s.Some? && d.Some? {
      FeedsExactly(host, p, s.value, d.value);
      assert FirstOf(p.steps, SourceSwap, s.value) && FirstOf(p.steps, BridgeDeposit, d.value);
      forall i, j | FirstOf(p.steps, SourceSwap, i) && FirstOf(p.steps, BridgeDeposit, j) ensures i == s.value && j == d.value {}
    }
  }

  lemma FeedsExactly(host: Host, p: Plan, i: int, j: int)
    requires 0 <= i < |p.steps| && 0 <= j < |p.steps| && PlanGraph.Valid(Graph(p.steps))
    ensures Feeds(host, p, i, j) <==>
            var swap, deposit := p.steps[i], p.steps[j];
            && swap.chainId == deposit.chainId == p.header.sourceChainId
            && TokensAgree(host, swap, deposit) && AmountsAgree(swap, deposit) && MinimumWithin(host, swap)
            && OrderedBefore(p.steps, swap, deposit)
  {
    PlaceInOrder(p.steps, i);
  }

  lemma SealExactly(host: Host, p: Plan)
    ensures PlanSeal.VerifyIntegrity(host, p, None) <==>
            && (Given(p.header.integrityHash) ==> p.header.integrityHash == Some(PlanSeal.Hash(host, p)))
            && (!Given(p.header.integrityHash) && Given(p.header.planHash) ==> p.header.planHash == Some(PlanSeal.Hash(host, p)))
  {
  }

  lemma StepsExactly(host: Host, lookups: Lookups, p: Plan)
    ensures StepsOk(host, lookups, p) <==> forall i :: 0 <= i < |p.steps| ==> StepInOrder(host, lookups, p.steps[i], p.header)
  {
    forall i | 0 <= i < |p.steps|
      ensures StepOk(host, lookups, p.steps[i], p.header) <==> StepInOrder(host, lookups, p.steps[i], p.header)
    {
      StepRulesExactly(host, lookups, p.steps[i], p.header);
    }
  }

  /** The validator accepts a plan exactly when it keeps these rules. */
  lemma AcceptedExactly(host: Host, lookups: Lookups, p: Plan)
    ensures Accepted(host, lookups, p) <==> PlanInOrder(host, lookups, p)
  {
    SealExactly(host, p);
    HeaderRulesExactly(host, lookups, p.header);
    StepsExactly(host, lookups, p);
    if PlanGraph.Valid(Graph(p.steps)) { CompositeExactly(host, p); }
  }
}
