/** The plan runControlledCompositeTestnetExecution builds for itself, whatever bridge quote it gets. */
module CompositePlan {
  import opened Js
  import opened PlanModel
  import opened PlanBuilder
  import PlanBuilderLaws
  import PlanValidator

  const ETH := Token("0xEeeeeEeeeEeEeeEeEeEeeEEEeeeeEeeeeeeeEEeE", "ETH", false)
  const SEPOLIA_USDC := Token("0x1c7D4B196Cb0C7B01d743Fbc6116a902379C7238", "USDC", false)
  const ARBITRUM_USDC := Token("0x75faf114eafb1BDbe2F0316DF893fd58CE46AA4d", "USDC", false)

  /** The source swap's quote is the runner's own, with fixed amounts. */
  function SwapQuote(router: string, calldata: string): DexQuote {
    DexQuote("UNISWAP_V3", Some(router), None, Some(calldata), None, Some(2492500), Some(2480037), None, Some(SEPOLIA_USDC), None)
  }

  function RunnerInput(host: Host, lookups: Lookups, quote: BridgeQuote, router: string, calldata: string, amount: string, user: string, planId: string): Input {
    Input(host, lookups,
      Route("", false, None, None,
        Some(quote.(sourceDexQuote := Some(SwapQuote(router, calldata)), sourceConnectorToken := Some(SEPOLIA_USDC))),
        None, Some(true), None, None),
      Request("sepolia", "arbitrum_sepolia", ETH, ARBITRUM_USDC, amount, Some(user), Some(user)),
      Some(user), Some(user), planId)
  }

  /** Whatever the bridge quote, the plan passes the composite check. */
  lemma RunnerPlanPasses(inp: Input, host: Host, lookups: Lookups, quote: BridgeQuote, router: string, calldata: string, amount: string, user: string, planId: string)
    requires PlanBuilderLaws.ReadsDecimals(host)
    requires inp == RunnerInput(host, lookups, quote, router, calldata, amount, user, planId)
    ensures PlanValidator.CompositeOk(host, BuiltPlan(inp))
  {
    PlanBuilderLaws.BuiltPlanFacts(inp);
    PlanBuilderLaws.CompositeAgreement(inp, BuiltPlan(inp).header);
  }

  lemma SevenOfNine(slots: seq<Option<Step>>)
    requires |slots| == 9 && forall k :: 0 <= k < 9 ==> (slots[k].None? <==> k == 1 || k == 6)
    ensures |Present(slots)| == 7
    ensures Present(slots)[1] == slots[2].value && Present(slots)[3] == slots[4].value && Present(slots)[5] == slots[7].value
  {
    assert slots[..0] == [] && slots[..9] == slots;
    OneSlotMore(slots, 0); OneSlotMore(slots, 1); OneSlotMore(slots, 2);
    assert Present(slots[..3]) == [slots[0].value, slots[2].value];
    OneSlotMore(slots, 3); OneSlotMore(slots, 4); OneSlotMore(slots, 5);
    OneSlotMore(slots, 6); OneSlotMore(slots, 7); OneSlotMore(slots, 8);
  }

  lemma NativeSwapBridge(inp: Input)
    requires inp.CrossChain() && inp.SourceNative() && inp.SourceDex().Some? && inp.DestDex().None?
    ensures var steps := BuiltSteps(inp);
            && |steps| == 7
            && steps[1].kind == SourceSwap && steps[3].kind == BridgeDeposit && steps[5].kind == DestinationVerify
  {
    SlotsFilled(inp);
    SevenOfNine(Slots(inp));
    LinkedKinds(inp);
    KindAt(inp, 2);
    KindAt(inp, 4);
    KindAt(inp, 7);
  }

  lemma LinkedKinds(inp: Input)
    ensures |BuiltSteps(inp)| == |Present(Slots(inp))|
    ensures forall i :: 0 <= i < |BuiltSteps(inp)| ==> BuiltSteps(inp)[i].kind == Present(Slots(inp))[i].kind
  {
    assert Slots(inp)[..9] == Slots(inp);
  }

  lemma SlotsFilled(inp: Input)
    requires inp.CrossChain() && inp.SourceNative() && inp.SourceDex().Some? && inp.DestDex().None?
    ensures forall k :: 0 <= k < 9 ==> (Slots(inp)[k].None? <==> k == 1 || k == 6)
  {
  }

  lemma KindAt(inp: Input, k: nat)
    requires k < 9 && Slot(inp, k).Some?
    ensures Slots(inp)[k].value.kind == SlotKind(k)
  {
  }

  /** With a quote that has no destination swap the plan has seven steps, and the three the runner names
      by position in its audit log are the swap, the deposit and the verification. */
  lemma RunnerPlanSteps(inp: Input, host: Host, lookups: Lookups, quote: BridgeQuote, router: string, calldata: string, amount: string, user: string, planId: string)
    requires inp == RunnerInput(host, lookups, quote, router, calldata, amount, user, planId)
    requires lookups.nativeToken(ETH.address) && quote.destDexQuote.None?
    ensures var steps := BuiltSteps(inp);
            && |steps| == 7
            && steps[1].kind == SourceSwap && steps[3].kind == BridgeDeposit && steps[5].kind == DestinationVerify
  {
    assert "sepolia"[0] != "arbitrum_sepolia"[0];
    NativeSwapBridge(inp);
  }
}
