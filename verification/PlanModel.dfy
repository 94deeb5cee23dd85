/** Execution plans: steps and plan headers as values, and the mutable objects that hold them. */
module PlanModel {
  import opened Js
  import PlanGraph

  datatype StepKind =
    | Validation | Approval | SourceApproval | SourceSwap | BridgeQuoteRefresh | BridgeDeposit
    | BridgeRelayWait | DestinationApproval | DestinationSwap | DestinationVerify | SettlementComplete

  datatype ExecutionEnvironment = EVM | SOLANA | OFF_CHAIN

  /** The declared statuses, and the three more that the repository's transition table knows. */
  datatype StepStatus =
    | NotStarted | Pending | Simulating | Signing | Submitted | Confirming | Success | Failed | Skipped
    | Idle | Active | Error

  datatype RouteType = Direct | MultiHop | CrossChainDirect | CrossChainComposite

  datatype CompositeMode = Atomic | Solver | SeparateDestinationTx | Unsupported

  datatype Token = Token(address: string, symbol: string, isNative: bool)

  /** A token for concrete plans. */
  const SAMPLE_TOKEN := Token("0x00000000000000000000000000000000000000a1", "COIN", false)

  const ZERO_ADDRESS := "0x0000000000000000000000000000000000000000"

  /** A chain's execution environment: everything that is neither EVM nor SOLANA is Other. */
  datatype ChainEnvironment = EvmChain | SolanaChain | OtherChain

  datatype ChainInfo = ChainInfo(chainId: Option<int>, environment: Option<ChainEnvironment>)

  /** The registries and address validators a plan is built and checked with: the chain registry, the
      capability registry, the native-token test, and the validators, true where they do not throw. */
  datatype Lookups = Lookups(
    chain: string -> Option<ChainInfo>,
    unsupported: string -> bool,
    nativeToken: string -> bool,
    evmAddress: string -> bool,
    tokenAddress: (string, string, bool) -> bool,
    recipientAddress: (string, string) -> bool)

  predicate OnSolana(chain: Option<ChainInfo>) { chain.Some? && chain.value.environment == Some(SolanaChain) }

  /** The environment steps on a chain declare: EVM on every chain but SOLANA's. */
  function EnvOf(chain: Option<ChainInfo>): ExecutionEnvironment {
    if OnSolana(chain) then SOLANA else EVM
  }

  /** `chain?.executionEnvironment || 'EVM'` is 'EVM': unlike a step's, not so on a chain of another kind. */
  predicate EvmOrUnstated(chain: Option<ChainInfo>) {
    chain.None? || chain.value.environment.None? || chain.value.environment == Some(EvmChain)
  }

  predicate MissingTarget(t: Option<string>) { !Truthy(t) || t.value == ZERO_ADDRESS }
  predicate MissingCalldata(c: Option<string>) { !Truthy(c) || c.value == "0x" }

  /** The contents of an ExecutionPlanStep. Raw amounts are texts, as in the source. */
  datatype Step = Step(
    id: string,
    kind: StepKind,
    chainId: string,
    numericChainId: Option<int>,
    environment: ExecutionEnvironment,
    dependencies: seq<string>,
    targetAddress: Option<string>,
    calldata: Option<string>,
    valueWei: Option<string>,
    approvalTarget: Option<string>,
    requiredTokenAddress: Option<string>,
    requiredAmountRaw: Option<string>,
    outputTokenAddress: Option<string>,
    expectedAmountOutRaw: Option<string>,
    minimumAmountOutRaw: Option<string>,
    status: StepStatus,
    txHash: Option<string>,
    error: Option<string>)

  /** Fields some plans carry beyond the declared interface; the hash reads them. */
  datatype Extras = Extras(
    authorizationScope: Option<string>,
    deadline: Option<int>,
    intentId: Option<string>,
    noncePolicy: Option<string>,
    recipient: Option<string>,
    userWalletAddress: Option<string>,
    sender: Option<string>,
    dex: Option<string>,
    bridge: Option<string>,
    solver: Option<string>,
    transactionValue: Option<string>,
    value: Option<string>)

  /** Everything in an ExecutionPlan except its steps. */
  datatype Header = Header(
    planId: string,
    routeId: string,
    routeType: RouteType,
    sourceChainId: string,
    destinationChainId: string,
    tokenIn: Token,
    tokenOut: Token,
    expectedAmountInRaw: string,
    expectedAmountOutRaw: string,
    minimumAmountOutRaw: string,
    isExecutable: bool,
    unexecutableReason: Option<string>,
    compositeExecutionMode: Option<CompositeMode>,
    selectedProvider: Option<string>,
    selectedDex: Option<string>,
    calldata: Option<string>,
    approvalTarget: Option<string>,
    executionTarget: Option<string>,
    expiration: Option<int>,
    capabilityEvidence: Option<string>,
    totalFeeRaw: Option<string>,
    integrityHash: Option<string>,
    planHash: Option<string>,
    extras: Extras)

  datatype Plan = Plan(header: Header, steps: seq<Step>)

  /** The part of a plan the graph algorithms see. */
  function Graph(steps: seq<Step>): seq<PlanGraph.Node> {
    seq(|steps|, i requires 0 <= i < |steps| => PlanGraph.Node(steps[i].id, steps[i].dependencies))
  }

  /** steps.find((s) => s.type === kind) */
  function FindKind(steps: seq<Step>, kind: StepKind): (r: Option<nat>)
    ensures r.Some? ==> r.value < |steps| && steps[r.value].kind == kind
    ensures r.Some? ==> forall k :: 0 <= k < r.value ==> steps[k].kind != kind
    ensures r.None? ==> forall k :: 0 <= k < |steps| ==> steps[k].kind != kind
  {
    if steps == [] then None
    else if steps[0].kind == kind then Some(0)
    else match FindKind(steps[1..], kind) case None => None case Some(k) => Some(k + 1)
  }

  /** A step object: shared by the plan, the topological order and whoever else holds it. */
  class PlanStep {
    var fields: Step

    constructor (s: Step)
      ensures fields == s
    {
      fields := s;
    }
  }

  /** A plan object. */
  class ExecutionPlan {
    var header: Header
    const steps: seq<PlanStep>

    constructor (h: Header, steps: seq<PlanStep>)
      ensures header == h && this.steps == steps
    {
      header := h;
      this.steps := steps;
    }

    function Steps(): (r: seq<Step>)
      reads steps
      ensures |r| == |steps|
    {
      seq(|steps|, i requires 0 <= i < |steps| reads steps => steps[i].fields)
    }

    function View(): Plan
      reads this, steps
    {
      Plan(header, Steps())
    }
  }
}
