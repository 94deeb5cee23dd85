/** What every built plan satisfies, and when the validator agrees with the builder. */
module PlanBuilderLaws {
  import opened Js
  import opened PlanModel
  import opened CanonicalJson
  import opened PlanBuilder
  import PlanGraph
  import PlanSeal
  import KahnOrder
  import KahnDepth
  import PlanValidator

  // ----- Every step comes from its own slot -----

  /** The slot of the i-th step. */
  ghost function PlaceOf(slots: seq<Option<Step>>, i: nat): (k: nat)
    requires i < |Present(slots)|
    ensures k < |slots| && slots[k] == Some(Present(slots)[i])
  {
    var front := slots[..|slots|-1];
    if i < |Present(front)| then PlaceOf(front, i) else |front|
  }

  lemma {:induction false} PlacesIncrease(slots: seq<Option<Step>>, i: nat, j: nat)
    requires i < j < |Present(slots)|
    ensures PlaceOf(slots, i) < PlaceOf(slots, j)
  {
    if j < |Present(slots[..|slots|-1])| { PlacesIncrease(slots[..|slots|-1], i, j); }
  }

  lemma {:induction false} PlaceIndex(slots: seq<Option<Step>>, k: nat) returns (i: nat)
    requires k < |slots| && slots[k].Some?
    ensures i < |Present(slots)| && Present(slots)[i] == slots[k].value && PlaceOf(slots, i) == k
  {
    var front := slots[..|slots|-1];
    if k == |front| { i := |Present(front)|; } else { i := PlaceIndex(front, k); }
  }

  ghost function SlotOf(inp: Input, i: nat): (k: nat)
    requires i < |Collect(inp, 9)|
    ensures k < 9 && Slot(inp, k) == Some(Collect(inp, 9)[i])
  {
    PlaceOf(Slots(inp)[..9], i)
  }

  lemma SlotsIncrease(inp: Input, i: nat, j: nat)
    requires i < j < |Collect(inp, 9)|
    ensures SlotOf(inp, i) < SlotOf(inp, j)
  {
    PlacesIncrease(Slots(inp)[..9], i, j);
  }

  lemma SlotsOrdered(inp: Input, i: nat, j: nat)
    requires i < |Collect(inp, 9)| && j < |Collect(inp, 9)| && SlotOf(inp, i) < SlotOf(inp, j)
    ensures i < j
  {
    if j < i { SlotsIncrease(inp, j, i); }
  }

  lemma SlotIndex(inp: Input, k: nat) returns (i: nat)
    requires k < 9 && Slot(inp, k).Some?
    ensures i < |Collect(inp, 9)| && Collect(inp, 9)[i] == Slot(inp, k).value && SlotOf(inp, i) == k
  {
    i := PlaceIndex(Slots(inp)[..9], k);
  }

  /** No id carries the prefixes of two slots. */
  lemma PrefixesClash(j: nat, k: nat, id: string)
    requires j < k < 9 && SlotPrefix(j) <= id
    ensures !(SlotPrefix(k) <= id)
  {
    var p, q := SlotPrefix(j), SlotPrefix(k);
    var at := if j == 2 && k == 8 then 1 else if j == 6 && k == 7 then 12 else if 3 <= j && k <= 5 then (if j == 3 && k == 5 then 7 else 6) else 0;
    assert p[at] != q[at];
    assert p[at] == id[at];
  }

  lemma DistinctBuiltIds(inp: Input, i: nat, j: nat)
    requires i < j < |Collect(inp, 9)|
    ensures Collect(inp, 9)[i].id != Collect(inp, 9)[j].id
  {
    SlotsIncrease(inp, i, j);
    var a, b := SlotOf(inp, i), SlotOf(inp, j);
    PrefixesClash(a, b, Collect(inp, 9)[i].id);
  }

  /** For every route and request the built steps form a chain with distinct ids, the dependency
      graph is valid, and the execution order is the listing itself. */
  lemma BuiltStepsAreAChain(inp: Input)
    ensures KahnDepth.IsChain(Graph(BuiltSteps(inp)))
    ensures PlanGraph.Valid(Graph(BuiltSteps(inp)))
    ensures KahnOrder.TopologicalOrder(Graph(BuiltSteps(inp))) == PlanGraph.Ids(Graph(BuiltSteps(inp)))
  {
    var bare := Collect(inp, 9);
    forall i, j | 0 <= i < j < |bare| ensures bare[i].id != bare[j].id { DistinctBuiltIds(inp, i, j); }
    LinkIsChain(bare);
    KahnDepth.ChainOrder(Graph(BuiltSteps(inp)));
  }

  /** Node i of a chain of these steps. */
  predicate ChainNode(n: PlanGraph.Node, steps: seq<Step>, i: nat)
    requires i < |steps|
  {
    n.id == steps[i].id && n.deps == PreviousId(steps, i)
  }

  lemma NodesAreAChain(g: seq<PlanGraph.Node>, steps: seq<Step>)
    requires |g| == |steps| && forall i :: 0 <= i < |g| ==> ChainNode(g[i], steps, i)
    requires forall i, j :: 0 <= i < j < |steps| ==> steps[i].id != steps[j].id
    ensures KahnDepth.IsChain(g)
  {
    forall i, j | 0 <= i < j < |g| ensures g[i].id != g[j].id {
      assert ChainNode(g[i], steps, i) && ChainNode(g[j], steps, j);
    }
    if g != [] { assert ChainNode(g[0], steps, 0); }
    forall i, j | 0 <= i < |g| && 0 <= j < |g| && j == i + 1 ensures g[j].deps == [g[i].id] {
      assert ChainNode(g[i], steps, i) && ChainNode(g[j], steps, j);
    }
  }

  lemma LinkIsChain(bare: seq<Step>)
    requires forall i, j :: 0 <= i < j < |bare| ==> bare[i].id != bare[j].id
    ensures KahnDepth.IsChain(Graph(Link(bare)))
  {
    var g := Graph(Link(bare));
    forall i | 0 <= i < |g| ensures ChainNode(g[i], bare, i) {
      assert g[i] == PlanGraph.Node(Link(bare)[i].id, Link(bare)[i].dependencies);
    }
    NodesAreAChain(g, bare);
  }

  // ----- Finding the swap and the deposit -----

  lemma SlotKindsDistinct(j: nat, k: nat)
    requires j < 9 && k < 9 && SlotKind(j) == SlotKind(k)
    ensures j == k
  {
  }

  /** steps.find on a kind returns the step of that kind's slot, or nothing if the slot is empty. */
  lemma FindSlot(inp: Input, k: nat)
    requires k < 9
    ensures FindKind(BuiltSteps(inp), SlotKind(k)).Some? <==> Slot(inp, k).Some?
    ensures Slot(inp, k).Some? ==>
      var i := FindKind(BuiltSteps(inp), SlotKind(k)).value;
      && Collect(inp, 9)[i] == Slot(inp, k).value && SlotOf(inp, i) == k
      && BuiltSteps(inp)[i] == Slot(inp, k).value.(dependencies := BuiltSteps(inp)[i].dependencies)
  {
    var r := FindKind(BuiltSteps(inp), SlotKind(k));
    if r.Some? {
      assert Collect(inp, 9)[r.value].kind == SlotKind(k);
      SlotKindsDistinct(SlotOf(inp, r.value), k);
    }
    if Slot(inp, k).Some? {
      var i := SlotIndex(inp, k);
      assert BuiltSteps(inp)[i].kind == SlotKind(k);
    }
  }

  /** A built plan asks for an approval exactly when it spends a token that is not native on a chain that
      is EVM or of no stated environment; on a chain of another kind it never does. */
  lemma ApprovalBuiltExactly(inp: Input)
    ensures FindKind(BuiltSteps(inp), Approval).Some? <==> !inp.SourceNative() && EvmOrUnstated(inp.SourceChain())
  {
    FindSlot(inp, 1);
    assert SlotKind(1) == Approval;
  }

  // ----- Builder and composite validator agree -----

  /** BigInt reads back what toString printed. */
  ghost predicate ReadsDecimals(host: Host) {
    forall n :: host.bigInt(Decimal(n)) == Some(n)
  }

  /** The composite quote is coherent: it names its connector token (or the swap's own output token
      happens to be the request's), and its minimum does not exceed its output. */
  predicate QuoteCoherent(inp: Input, dex: DexQuote) {
    && (Truthy(AddressOf(inp.Connector()))
        || !Truthy(AddressOf(dex.tokenOut)) || inp.request.tokenIn.address == ""
        || inp.host.lower(dex.tokenOut.value.address) == inp.host.lower(inp.request.tokenIn.address))
    && (dex.minimumAmountOut.Some? && dex.amountOut.Some? ==> dex.minimumAmountOut.value <= dex.amountOut.value)
  }

  lemma CoherenceDecides(inp: Input, dex: DexQuote)
    requires ReadsDecimals(inp.host) && inp.SourceDex() == Some(dex)
    ensures QuoteCoherent(inp, dex) <==>
            PlanValidator.TokensAgree(inp.host, CompositeSwapStep(inp, dex), DepositStep(inp)) &&
            PlanValidator.MinimumWithin(inp.host, CompositeSwapStep(inp, dex))
    ensures PlanValidator.AmountsAgree(CompositeSwapStep(inp, dex), DepositStep(inp))
  {
  }

  /** A built plan that swaps before bridging passes the composite check exactly when its quote is
      coherent; every other built plan passes it. */
  lemma CompositeAgreement(inp: Input, h: Header)
    requires ReadsDecimals(inp.host) && h.sourceChainId == inp.request.sourceChainId
    ensures PlanValidator.CompositeOk(inp.host, Plan(h, BuiltSteps(inp))) <==>
            (inp.CrossChain() && inp.SourceDex().Some? ==> QuoteCoherent(inp, inp.SourceDex().value))
  {
    var steps := BuiltSteps(inp);
    FindSlot(inp, 2);
    FindSlot(inp, 4);
    assert SlotKind(2) == SourceSwap && SlotKind(4) == BridgeDeposit;
    if inp.CrossChain() && inp.SourceDex().Some? {
      var dex := inp.SourceDex().value;
      var i, j := FindKind(steps, SourceSwap).value, FindKind(steps, BridgeDeposit).value;
      CoherenceDecides(inp, dex);
      SameCheckedFields(inp.host, CompositeSwapStep(inp, dex), steps[i], DepositStep(inp), steps[j]);
      SlotsOrdered(inp, i, j);
      BuiltStepsAreAChain(inp);
      PlacedInOrder(steps, i, j);
    }
  }

  /** The composite checks do not look at dependencies. */
  lemma SameCheckedFields(host: Host, a: Step, a': Step, b: Step, b': Step)
    requires a' == a.(dependencies := a'.dependencies) && b' == b.(dependencies := b'.dependencies)
    ensures PlanValidator.TokensAgree(host, a, b) == PlanValidator.TokensAgree(host, a', b')
    ensures PlanValidator.AmountsAgree(a, b) == PlanValidator.AmountsAgree(a', b')
    ensures PlanValidator.MinimumWithin(host, a) == PlanValidator.MinimumWithin(host, a')
  {
  }

  lemma PlacedInOrder(steps: seq<Step>, i: nat, j: nat)
    requires i < j < |steps| && PlanGraph.Valid(Graph(steps))
    requires KahnOrder.TopologicalOrder(Graph(steps)) == PlanGraph.Ids(Graph(steps))
    ensures PlanValidator.OrderedBefore(steps, steps[i], steps[j])
  {
    var o := KahnOrder.TopologicalOrder(Graph(steps));
    assert o[i] == steps[i].id && o[j] == steps[j].id;
  }

  /** The quote of a route that swaps before it bridges is coherent. */
  predicate Coherent(inp: Input) {
    inp.CrossChain() && inp.SourceDex().Some? ==> QuoteCoherent(inp, inp.SourceDex().value)
  }

  lemma BuiltPlanFacts(inp: Input)
    ensures PlanSeal.VerifyIntegrity(inp.host, BuiltPlan(inp), None)
    ensures BuiltPlan(inp).steps == BuiltSteps(inp) != []
    ensures BuiltPlan(inp).header.sourceChainId == inp.request.sourceChainId
    ensures BuiltPlan(inp).header.destinationChainId == inp.request.destinationChainId
    ensures BuiltPlan(inp).header.isExecutable == Executable(inp)
    ensures BuiltPlan(inp).header.extras.recipient == inp.Recipient()
    ensures PlanGraph.Valid(Graph(BuiltPlan(inp).steps))
  {
    var header := BuiltHeader(inp, ReasonOf(inp), if inp.CrossChain() then Some(ModeOf(inp)) else None);
    PlanSeal.SealVerifiesAndIsIdempotent(inp.host, Plan(header, BuiltSteps(inp)));
    BuiltStepsAreAChain(inp);
    FindSlot(inp, 0);
  }

  /** The whole validator on a built plan. */
  lemma BuiltPlanAccepted(inp: Input)
    requires ReadsDecimals(inp.host)
    ensures PlanValidator.Accepted(inp.host, inp.lookups, BuiltPlan(inp)) <==>
            && PlanValidator.HeaderOk(inp.host, inp.lookups, BuiltPlan(inp).header)
            && PlanValidator.StepsOk(inp.host, inp.lookups, BuiltPlan(inp))
            && Coherent(inp)
  {
    BuiltPlanFacts(inp);
    CompositeAgreement(inp, BuiltPlan(inp).header);
  }

  // ----- What "executable" does and does not mean -----

  predicate LacksCalldata(s: Step) { MissingCalldata(s.calldata) }
  predicate LacksTarget(s: Step) { MissingTarget(s.targetAddress) }

  /** A value-moving step has its target and its calldata, with two exceptions, each exactly when the
      route itself lacks the piece: a same-chain swap's calldata and a destination swap's target. */
  predicate Runnable(inp: Input, s: Step) {
    && (s.kind in {SourceSwap, BridgeDeposit} ==> !LacksTarget(s))
    && (s.kind in {BridgeDeposit, DestinationSwap} ==> !LacksCalldata(s))
    && (s.kind == SourceSwap ==> (LacksCalldata(s) <==> !inp.CrossChain() && MissingCalldata(inp.SwapData())))
    && (s.kind == DestinationSwap ==>
          inp.DestDex().Some? && (LacksTarget(s) <==> MissingTarget(inp.DestDex().value.executionTarget)))
  }

  lemma SlotRunnable(inp: Input, k: nat)
    requires Executable(inp) && k < 9 && Slot(inp, k).Some?
    ensures Runnable(inp, Slot(inp, k).value)
  {
  }

  lemma ExecutableStepsRunnable(inp: Input, i: nat)
    requires Executable(inp) && i < |BuiltSteps(inp)|
    ensures Runnable(inp, BuiltSteps(inp)[i])
  {
    SlotRunnable(inp, SlotOf(inp, i));
    assert Slot(inp, SlotOf(inp, i)).value == Collect(inp, 9)[i];
  }

  // ----- The step checks on built plans -----

  predicate GoodTarget(lookups: Lookups, t: Option<string>) { !MissingTarget(t) ==> lookups.evmAddress(t.value) }
  predicate GoodData(c: Option<string>) { !MissingCalldata(c) ==> PlanValidator.HexData(c.value) }

  function ApprovalTarget(inp: Input): Option<string> {
    Or(inp.Exec().approvalTarget, Or(inp.Dexed().approvalTarget, inp.Quoted().approvalTarget))
  }

  /** Every text the route and the request do give is in order: known chains, addresses that pass
      their validator, calldata that is hexadecimal, amounts that parse. */
  predicate WellFormed(inp: Input) {
    && inp.request.sourceChainId != "" && inp.SourceChain().Some?
    && inp.request.destinationChainId != "" && inp.DestChain().Some?
    && inp.request.tokenIn.address != "" && inp.request.tokenIn.address != ZERO_ADDRESS
    && inp.lookups.tokenAddress(inp.request.tokenIn.address, inp.request.sourceChainId, false)
    && inp.request.amountInRaw != "" && PlanValidator.ReadsAtLeast(inp.host, inp.request.amountInRaw, 1)
    && PlanValidator.ReadsAtLeast(inp.host, "0", 0)
    && (Truthy(inp.Exec().value) ==> PlanValidator.ReadsAtLeast(inp.host, inp.Exec().value.value, 0))
    && GoodTarget(inp.lookups, ApprovalTarget(inp))
    && GoodTarget(inp.lookups, inp.SwapTarget()) && GoodData(inp.SwapData())
    && GoodTarget(inp.lookups, inp.DepositTarget()) && GoodData(inp.DepositData())
    && (inp.SourceDex().Some? ==> GoodTarget(inp.lookups, inp.SourceDex().value.executionTarget) && GoodData(inp.SourceDex().value.calldata))
    && (inp.DestDex().Some? ==> GoodTarget(inp.lookups, inp.DestDex().value.executionTarget) && GoodData(inp.DestDex().value.calldata))
  }

  /** The approval step, pushed on EVM chains only, has nobody to approve. */
  predicate NobodyToApprove(inp: Input) {
    !inp.SourceNative() && EvmOrUnstated(inp.SourceChain()) && MissingTarget(ApprovalTarget(inp))
  }

  /** An executable same-chain swap without calldata, on any chain but SOLANA's. */
  predicate SwapWithoutCalldata(inp: Input) {
    Executable(inp) && !inp.CrossChain() && inp.SourceEnv() == EVM && MissingCalldata(inp.SwapData())
  }

  /** An executable destination swap without a target, on any chain but SOLANA's. */
  predicate DestinationWithoutTarget(inp: Input) {
    Executable(inp) && inp.CrossChain() && inp.DestSwapRuns() && inp.DestEnv() == EVM
    && MissingTarget(inp.DestDex().value.executionTarget)
  }

  /** The slots whose step fails validateStep. */
  predicate SlotFails(inp: Input, k: nat) {
    (k == 1 && NobodyToApprove(inp)) || (k == 2 && SwapWithoutCalldata(inp)) || (k == 6 && DestinationWithoutTarget(inp))
  }

  lemma PrefixNotBlank(k: nat, id: string)
    requires k < 9 && SlotPrefix(k) <= id
    ensures !IsBlank(id)
  {
    assert !IsSpace(SlotPrefix(k)[0]) && id[0] == SlotPrefix(k)[0];
  }

  /** Where slot k's step runs. */
  function SlotChain(inp: Input, k: nat): string {
    if k <= 4 then inp.request.sourceChainId else inp.request.destinationChainId
  }

  function SlotEnv(inp: Input, k: nat): ExecutionEnvironment {
    if k in {3, 5, 8} then OFF_CHAIN else if k <= 4 then inp.SourceEnv() else inp.DestEnv()
  }

  lemma SlotRunsAt(inp: Input, k: nat)
    requires k < 9 && Slot(inp, k).Some?
    ensures Slot(inp, k).value.chainId == SlotChain(inp, k) && Slot(inp, k).value.environment == SlotEnv(inp, k)
  {
  }

  lemma PlacedStep(inp: Input, k: nat, s: Step, h: Header)
    requires k < 9 && WellFormed(inp) && s.kind == SlotKind(k) && !IsBlank(s.id)
    requires s.chainId == SlotChain(inp, k) && s.environment == SlotEnv(inp, k)
    requires h.sourceChainId == inp.request.sourceChainId && h.destinationChainId == inp.request.destinationChainId
    ensures PlanValidator.PlaceOk(inp.lookups, s, h)
  {
  }

  lemma SwapSlotOk(inp: Input)
    requires WellFormed(inp) && Executable(inp) && Slot(inp, 2).Some? && inp.SourceEnv() == EVM
    ensures PlanValidator.CallOk(inp.host, inp.lookups, Slot(inp, 2).value) <==> !SlotFails(inp, 2)
  {
  }

  lemma DepositSlotOk(inp: Input)
    requires WellFormed(inp) && Executable(inp) && Slot(inp, 4).Some?
    ensures PlanValidator.CallOk(inp.host, inp.lookups, Slot(inp, 4).value)
  {
  }

  lemma DestSlotOk(inp: Input)
    requires WellFormed(inp) && Executable(inp) && Slot(inp, 6).Some? && inp.DestEnv() == EVM
    ensures PlanValidator.CallOk(inp.host, inp.lookups, Slot(inp, 6).value) <==> !SlotFails(inp, 6)
  {
  }

  lemma ApprovalSlotOk(inp: Input)
    requires WellFormed(inp) && Slot(inp, 1).Some?
    ensures PlanValidator.ApprovalOk(inp.host, inp.lookups, Slot(inp, 1).value) <==> !SlotFails(inp, 1)
  {
  }

  /** Only these kinds of step have a call or an approval to check. */
  lemma CheckedSlots(k: nat)
    requires k < 9
    ensures PlanValidator.MovesValue(SlotKind(k)) <==> k in {2, 4, 6}
    ensures PlanValidator.Approves(SlotKind(k)) <==> k == 1
  {
  }

  lemma SlotValidates(inp: Input, k: nat, s: Step, h: Header)
    requires k < 9 && WellFormed(inp) && Slot(inp, k) == Some(s)
    requires h.sourceChainId == inp.request.sourceChainId && h.destinationChainId == inp.request.destinationChainId
    requires h.isExecutable == Executable(inp)
    ensures PlanValidator.StepOk(inp.host, inp.lookups, s, h) <==> !SlotFails(inp, k)
  {
    PrefixNotBlank(k, s.id);
    SlotRunsAt(inp, k);
    PlacedStep(inp, k, s, h);
    CheckedSlots(k);
    if k == 1 { ApprovalSlotOk(inp); } else { SlotCallValidates(inp, k, s); }
  }

  lemma SlotCallValidates(inp: Input, k: nat, s: Step)
    requires k < 9 && WellFormed(inp) && Slot(inp, k) == Some(s) && k != 1
    ensures Executable(inp) && k in {2, 4, 6} && SlotEnv(inp, k) == EVM ==>
              (PlanValidator.CallOk(inp.host, inp.lookups, s) <==> !SlotFails(inp, k))
    ensures !(Executable(inp) && k in {2, 6} && SlotEnv(inp, k) == EVM) ==> !SlotFails(inp, k)
  {
    if Executable(inp) {
      if k == 2 && inp.SourceEnv() == EVM { SwapSlotOk(inp); }
      if k == 4 { DepositSlotOk(inp); }
      if k == 6 && inp.DestEnv() == EVM { DestSlotOk(inp); }
    }
  }

  /** A failing slot is a filled one. */
  lemma FailingSlotFilled(inp: Input, k: nat)
    requires k < 9 && SlotFails(inp, k)
    ensures Slot(inp, k).Some?
  {
  }

  /** When everything the route gives is well formed, the steps of its plan pass the step checks
      except in three families: nobody to approve on an EVM chain, and, in a plan that claims to be
      executable, off SOLANA, a same-chain swap without calldata or a destination swap without a target. */
  lemma BuiltStepsValidate(inp: Input)
    requires WellFormed(inp)
    ensures PlanValidator.StepsOk(inp.host, inp.lookups, BuiltPlan(inp)) <==>
            !NobodyToApprove(inp) && !SwapWithoutCalldata(inp) && !DestinationWithoutTarget(inp)
  {
    BuiltPlanFacts(inp);
    if !SlotFails(inp, 1) && !SlotFails(inp, 2) && !SlotFails(inp, 6) {
      forall i | 0 <= i < |BuiltSteps(inp)|
        ensures PlanValidator.StepOk(inp.host, inp.lookups, BuiltSteps(inp)[i], BuiltPlan(inp).header)
      {
        BuiltStepValidates(inp, i);
      }
    } else {
      var k := if SlotFails(inp, 1) then 1 else if SlotFails(inp, 2) then 2 else 6;
      FailingSlotFilled(inp, k);
      var i := SlotIndex(inp, k);
      BuiltStepValidates(inp, i);
      assert !PlanValidator.StepOk(inp.host, inp.lookups, BuiltPlan(inp).steps[i], BuiltPlan(inp).header);
    }
  }

  lemma BuiltStepValidates(inp: Input, i: nat)
    requires WellFormed(inp) && i < |BuiltSteps(inp)|
    ensures PlanValidator.StepOk(inp.host, inp.lookups, BuiltSteps(inp)[i], BuiltPlan(inp).header) <==> !SlotFails(inp, SlotOf(inp, i))
  {
    BuiltPlanFacts(inp);
    var s := Collect(inp, 9)[i];
    SlotValidates(inp, SlotOf(inp, i), s, BuiltPlan(inp).header);
    SameCheckedStep(inp, s, BuiltSteps(inp)[i], BuiltPlan(inp).header);
  }

  /** The step checks do not look at dependencies. */
  lemma SameCheckedStep(inp: Input, s: Step, s': Step, h: Header)
    requires s' == s.(dependencies := s'.dependencies)
    ensures PlanValidator.StepOk(inp.host, inp.lookups, s', h) == PlanValidator.StepOk(inp.host, inp.lookups, s, h)
  {
  }

  /** Builder against validator, in the builder's terms: a well-formed route's plan with a good header
      is accepted exactly when its quote is coherent and none of the three families occurs. */
  lemma BuilderMeetsValidator(inp: Input)
    requires ReadsDecimals(inp.host) && WellFormed(inp)
    requires PlanValidator.HeaderOk(inp.host, inp.lookups, BuiltPlan(inp).header)
    ensures PlanValidator.Accepted(inp.host, inp.lookups, BuiltPlan(inp)) <==>
            Coherent(inp) && !NobodyToApprove(inp) && !SwapWithoutCalldata(inp) && !DestinationWithoutTarget(inp)
  {
    BuiltPlanAccepted(inp);
    BuiltStepsValidate(inp);
  }

  // ----- Inputs of the three families, and an incoherent quote -----

  const SAMPLE_ROUTER := "0x00000000000000000000000000000000000000b2"

  /** Look-ups that accept everything, on chains that are all EVM. */
  const ANY_LOOKUPS := Lookups(
    (c: string) => Some(ChainInfo(None, Some(EvmChain))), (c: string) => false, (t: string) => false, (t: string) => true,
    (t: string, c: string, native: bool) => true, (t: string, c: string) => true)

  function SampleInput(host: Host, to: string, route: Route): Input {
    Input(host, ANY_LOOKUPS, route, Request("polygon", to, SAMPLE_TOKEN, SAMPLE_TOKEN, "1", None, None), None, None, "p")
  }

  function Dex(target: Option<string>, calldata: Option<string>, out: int, min: int): DexQuote {
    DexQuote("DEX", target, None, calldata, Some(1), Some(out), Some(min), None, None, None)
  }

  function BridgeRoute(source: Option<DexQuote>, dest: Option<DexQuote>, approval: Option<string>): Route {
    Route("r", false, None, None,
      Some(BridgeQuote("ACROSS", Some(SAMPLE_ROUTER), approval, Some("0xabcd"), source, dest, None, None, Some(Solver), None, None, None, None, None, None)),
      None, None, None, None)
  }

  /** A same-chain route with a router but no calldata. */
  function NoCalldataInput(host: Host): Input {
    SampleInput(host, "polygon", Route("r", false, None, None, None, Some(RouteExecution(Some(SAMPLE_ROUTER), None, None, Some(SAMPLE_ROUTER))), None, None, None))
  }

  /** A bridge whose destination swap is solved for, with calldata but no target. */
  function NoTargetInput(host: Host): Input {
    SampleInput(host, "base", BridgeRoute(None, Some(Dex(None, Some("0xabcd"), 1, 1)), Some(SAMPLE_ROUTER)))
  }

  /** A bridge of a token nobody is approved for. */
  function NoSpenderInput(host: Host): Input {
    SampleInput(host, "base", BridgeRoute(None, None, None))
  }

  /** A swap before a bridge, with a minimum above its output. */
  function IncoherentInput(host: Host): Input {
    SampleInput(host, "base", BridgeRoute(Some(Dex(Some(SAMPLE_ROUTER), Some("0xabcd"), 1, 2)), None, Some(SAMPLE_ROUTER)))
  }

  lemma RouterIsNotZero()
    ensures SAMPLE_ROUTER != ZERO_ADDRESS
  {
    assert SAMPLE_ROUTER[41] == '2' && ZERO_ADDRESS[41] == '0';
  }

  lemma TokenIsNotZero()
    ensures SAMPLE_TOKEN.address != ZERO_ADDRESS
  {
    assert SAMPLE_TOKEN.address[41] == '1' && ZERO_ADDRESS[41] == '0';
  }

  predicate ReadsSamples(host: Host) { host.bigInt("0") == Some(0) && host.bigInt("1") == Some(1) }

  lemma SamplesAreWellFormed(host: Host)
    requires ReadsSamples(host)
    ensures WellFormed(NoCalldataInput(host)) && WellFormed(NoTargetInput(host)) && WellFormed(NoSpenderInput(host))
  {
    RouterIsNotZero();
    TokenIsNotZero();
  }

  /** So "executable" does not imply that every step validates: each family has an executable,
      otherwise well-formed plan in it. */
  lemma SwapWithoutCalldataOccurs(host: Host)
    requires ReadsSamples(host)
    ensures var inp := NoCalldataInput(host);
            Executable(inp) && SwapWithoutCalldata(inp) && !PlanValidator.StepsOk(host, ANY_LOOKUPS, BuiltPlan(inp))
  {
    RouterIsNotZero();
    SamplesAreWellFormed(host);
    assert Executable(NoCalldataInput(host));
    BuiltStepsValidate(NoCalldataInput(host));
  }

  lemma DestinationWithoutTargetOccurs(host: Host)
    requires ReadsSamples(host)
    ensures var inp := NoTargetInput(host);
            Executable(inp) && DestinationWithoutTarget(inp) && !PlanValidator.StepsOk(host, ANY_LOOKUPS, BuiltPlan(inp))
  {
    RouterIsNotZero();
    SamplesAreWellFormed(host);
    assert Executable(NoTargetInput(host));
    BuiltStepsValidate(NoTargetInput(host));
  }

  lemma NobodyToApproveOccurs(host: Host)
    requires ReadsSamples(host)
    ensures var inp := NoSpenderInput(host);
            Executable(inp) && NobodyToApprove(inp) && !PlanValidator.StepsOk(host, ANY_LOOKUPS, BuiltPlan(inp))
  {
    RouterIsNotZero();
    SamplesAreWellFormed(host);
    assert Executable(NoSpenderInput(host));
    BuiltStepsValidate(NoSpenderInput(host));
  }

  /** The same bridge of a token nobody is approved for, from a chain that is neither EVM nor SOLANA. */
  function OtherChainInput(host: Host): Input {
    NoSpenderInput(host).(lookups := ANY_LOOKUPS.(chain := (c: string) => Some(ChainInfo(None, Some(OtherChain)))))
  }

  /** There no approval is built, and every step validates. */
  lemma OtherChainsNeedNobody(host: Host)
    requires ReadsSamples(host)
    ensures var inp := OtherChainInput(host);
            Executable(inp) && !NobodyToApprove(inp) && PlanValidator.StepsOk(host, inp.lookups, BuiltPlan(inp))
  {
    RouterIsNotZero();
    TokenIsNotZero();
    assert WellFormed(OtherChainInput(host)) && Executable(OtherChainInput(host));
    BuiltStepsValidate(OtherChainInput(host));
  }

  /** A built plan the composite check refuses. */
  lemma IncoherentQuoteRefused(host: Host)
    requires ReadsDecimals(host)
    ensures Executable(IncoherentInput(host)) && !PlanValidator.CompositeOk(host, BuiltPlan(IncoherentInput(host)))
  {
    RouterIsNotZero();
    BuiltPlanFacts(IncoherentInput(host));
    CompositeAgreement(IncoherentInput(host), BuiltPlan(IncoherentInput(host)).header);
  }
}
