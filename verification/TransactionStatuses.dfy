/** ExecutionStateMachine, and whether it accepts the transitions that executeTrade asks of it. */
module TransactionStatuses {
  import opened Js
  import opened PlanModel
  import opened PlanBuilder

  datatype Status =
    | IDLE | PREPARING | QUOTE_REQUESTED | QUOTED | SIMULATING | SIMULATED | APPROVAL_NEEDED | APPROVING | APPROVED
    | SIGNING | SUBMITTING | BROADCASTED | CONFIRMING | BRIDGE_SOURCE_CONFIRMED | BRIDGE_IN_FLIGHT
    | BRIDGE_DESTINATION_CONFIRMED | DESTINATION_FILLED | TRACKING_TIMEOUT | TRACKING_UNAVAILABLE | REFUND_PENDING
    | COMPLETED | SETTLED | FAILED | REVERTED | CANCELLED | REFUNDED

  /** VALID_TRANSACTION_STATUS_TRANSITIONS */
  function Next(from: Status): set<Status> {
    match from
    case IDLE => {QUOTE_REQUESTED, QUOTED, SIMULATING, APPROVAL_NEEDED, APPROVING, SIGNING, SUBMITTING, BROADCASTED, CONFIRMING,
                  BRIDGE_SOURCE_CONFIRMED, BRIDGE_IN_FLIGHT, BRIDGE_DESTINATION_CONFIRMED, DESTINATION_FILLED, SETTLED,
                  TRACKING_TIMEOUT, TRACKING_UNAVAILABLE, REFUND_PENDING, REFUNDED, FAILED, CANCELLED, PREPARING}
    case PREPARING => {SIMULATING, SIMULATED, FAILED, CANCELLED}
    case QUOTE_REQUESTED => {QUOTED, FAILED, CANCELLED}
    case QUOTED => {SIMULATING, SIMULATED, APPROVAL_NEEDED, APPROVING, SIGNING, FAILED, CANCELLED}
    case SIMULATING => {SIMULATED, APPROVAL_NEEDED, APPROVING, SIGNING, FAILED, REVERTED, CANCELLED}
    case SIMULATED => {APPROVAL_NEEDED, APPROVING, SIGNING, SUBMITTING, FAILED, CANCELLED}
    case APPROVAL_NEEDED => {APPROVING, FAILED, CANCELLED}
    case APPROVING => {APPROVED, FAILED, CANCELLED, REVERTED}
    case APPROVED => {SIGNING, SUBMITTING, CONFIRMING, BRIDGE_IN_FLIGHT, FAILED, CANCELLED}
    case SIGNING => {SUBMITTING, BROADCASTED, CONFIRMING, BRIDGE_IN_FLIGHT, FAILED, CANCELLED}
    case SUBMITTING => {BROADCASTED, CONFIRMING, BRIDGE_SOURCE_CONFIRMED, BRIDGE_IN_FLIGHT, FAILED, CANCELLED, REVERTED}
    case BROADCASTED => {CONFIRMING, COMPLETED, BRIDGE_SOURCE_CONFIRMED, BRIDGE_IN_FLIGHT, FAILED, REVERTED}
    case CONFIRMING => {COMPLETED, BRIDGE_SOURCE_CONFIRMED, BRIDGE_IN_FLIGHT, DESTINATION_FILLED, SETTLED, FAILED, REVERTED,
                        SIMULATING, SIMULATED, APPROVING, APPROVED, SIGNING, SUBMITTING}
    case BRIDGE_SOURCE_CONFIRMED => {BRIDGE_IN_FLIGHT, BRIDGE_DESTINATION_CONFIRMED, DESTINATION_FILLED, SETTLED,
                                     TRACKING_TIMEOUT, TRACKING_UNAVAILABLE, REFUND_PENDING, FAILED}
    case BRIDGE_IN_FLIGHT => {BRIDGE_DESTINATION_CONFIRMED, DESTINATION_FILLED, COMPLETED, SETTLED,
                              TRACKING_TIMEOUT, TRACKING_UNAVAILABLE, REFUND_PENDING, FAILED}
    case BRIDGE_DESTINATION_CONFIRMED => {DESTINATION_FILLED, COMPLETED, SETTLED, REFUND_PENDING, FAILED}
    case DESTINATION_FILLED => {SETTLED, COMPLETED, REFUND_PENDING, FAILED}
    case TRACKING_TIMEOUT | TRACKING_UNAVAILABLE => {BRIDGE_IN_FLIGHT, DESTINATION_FILLED, SETTLED, REFUND_PENDING, REFUNDED, FAILED}
    case REFUND_PENDING => {REFUNDED, FAILED}
    case COMPLETED | SETTLED | FAILED | REVERTED | CANCELLED | REFUNDED => {}
  }

  predicate Terminal(s: Status) { s in {COMPLETED, SETTLED, FAILED, REVERTED, CANCELLED, REFUNDED} }

  /** Nothing leads on from a terminal status, FAILED can be reached from every other, and nothing leads back
      to the start. */
  lemma TerminalExactly(s: Status)
    ensures if Terminal(s) then Next(s) == {} else FAILED in Next(s)
    ensures IDLE !in Next(s) && s !in Next(s)
  {
  }

  /** Which statuses may end how: cancelled before anything is broadcast, reverted in a simulation, an
      approval or a transaction, completed or settled after one, refunded when tracking gave up. */
  lemma EndsExactly(s: Status)
    ensures CANCELLED in Next(s) <==> s in {IDLE, PREPARING, QUOTE_REQUESTED, QUOTED, SIMULATING, SIMULATED, APPROVAL_NEEDED,
                                            APPROVING, APPROVED, SIGNING, SUBMITTING}
    ensures REVERTED in Next(s) <==> s in {SIMULATING, APPROVING, SUBMITTING, BROADCASTED, CONFIRMING}
    ensures COMPLETED in Next(s) <==> s in {BROADCASTED, CONFIRMING, BRIDGE_IN_FLIGHT, BRIDGE_DESTINATION_CONFIRMED, DESTINATION_FILLED}
    ensures SETTLED in Next(s) <==> s in {IDLE, CONFIRMING, BRIDGE_SOURCE_CONFIRMED, BRIDGE_IN_FLIGHT, BRIDGE_DESTINATION_CONFIRMED,
                                          DESTINATION_FILLED, TRACKING_TIMEOUT, TRACKING_UNAVAILABLE}
    ensures REFUNDED in Next(s) <==> s in {IDLE, TRACKING_TIMEOUT, TRACKING_UNAVAILABLE, REFUND_PENDING}
  {
  }

  predicate Accepts(from: Status, to: Status) { from == to || to in Next(from) }

  class ExecutionStateMachine {
    var currentStatus: Status

    constructor ()
      ensures currentStatus == IDLE
    {
      currentStatus := IDLE;
    }

    /** transitionTo: throws, and stays where it is, exactly on a transition the table does not have. */
    method TransitionTo(newStatus: Status) returns (thrown: bool)
      modifies this
      ensures thrown == !Accepts(old(currentStatus), newStatus)
      ensures currentStatus == if thrown then old(currentStatus) else newStatus
    {
      thrown := false;
      if currentStatus != newStatus {
        if newStatus !in Next(currentStatus) { return true; }
        currentStatus := newStatus;
      }
    }

    /** Requests one after another, up to the first that throws. */
    method TransitionAll(requests: seq<Status>) returns (thrown: bool)
      modifies this
      ensures thrown <==> Follow(Some(old(currentStatus)), requests).None?
      ensures !thrown ==> Some(currentStatus) == Follow(Some(old(currentStatus)), requests)
    {
      thrown := false;
      for i := 0 to |requests|
        invariant !thrown && Follow(Some(old(currentStatus)), requests) == Follow(Some(currentStatus), requests[i..])
      {
        assert requests[i..][1..] == requests[i+1..];
        thrown := TransitionTo(requests[i]);
        if thrown { RefusedStays(requests[i+1..]); return; }
      }
    }
  }

  /** Where requests lead from a status; None once one is refused. */
  function Follow(from: Option<Status>, requests: seq<Status>): Option<Status>
    decreases requests
  {
    if requests == [] || from.None? then from
    else Follow(if Accepts(from.value, requests[0]) then Some(requests[0]) else None, requests[1..])
  }

  lemma RefusedStays(requests: seq<Status>)
    ensures Follow(None, requests) == None
  {
  }

  lemma {:induction false} FollowBoth(from: Option<Status>, a: seq<Status>, b: seq<Status>)
    ensures Follow(from, a + b) == Follow(Follow(from, a), b)
    decreases a
  {
    if a == [] || from.None? {
      assert a == [] ==> a + b == b;
    } else {
      assert (a + b)[1..] == a[1..] + b;
      FollowBoth(if Accepts(from.value, a[0]) then Some(a[0]) else None, a[1..], b);
    }
  }

  // ----- What executing a step asks for, when nothing else goes wrong -----

  datatype Allowance = Unchecked | Enough | Short

  /** What the requests depend on besides the kind of step. */
  datatype Circumstances = Circumstances(
    solana: bool,            // the source chain is SOLANA, and its adapter swaps
    allowance: Allowance,    // of an approval step
    depositShort: bool,      // the adapter has to approve the deposit's token first
    tracked: bool,           // the relay wait waits, and the tracker finds the order filled and verified
    destSigner: bool)        // the user signs the destination swap; otherwise a solver executes it

  const SENT := [SIGNING, SUBMITTING, BROADCASTED, CONFIRMING]

  /** The coordinator's own requests and, where it passes them on, those of adapter and tracker. A source
      swap ignores the adapter's approval; a deposit passes every status on. */
  function Requests(k: StepKind, c: Circumstances): seq<Status> {
    match k
    case Validation => [SIMULATING, SIMULATED]
    case Approval | SourceApproval =>
      (match c.allowance case Unchecked => [] case Enough => [APPROVING, APPROVED] case Short => [APPROVING, APPROVING, APPROVED, APPROVED])
    case DestinationApproval =>
      (match c.allowance case Unchecked => [] case Enough => [APPROVING] case Short => [APPROVING, APPROVING, APPROVED])
    case SourceSwap =>
      if c.solana then [SIGNING, SUBMITTING, BROADCASTED, CONFIRMING, COMPLETED, CONFIRMING]
      else [SIGNING, SUBMITTING, BROADCASTED, CONFIRMING, CONFIRMING]
    case BridgeQuoteRefresh => [SIMULATING, SIMULATED]
    case BridgeDeposit => [SIGNING] + (if c.depositShort then [APPROVING, APPROVED] else []) + SENT + [BRIDGE_IN_FLIGHT]
    case BridgeRelayWait =>
      if c.tracked then [BRIDGE_IN_FLIGHT, BRIDGE_DESTINATION_CONFIRMED, COMPLETED, BRIDGE_DESTINATION_CONFIRMED] else [BRIDGE_IN_FLIGHT]
    case DestinationSwap => if c.destSigner then [SIGNING] + SENT + [CONFIRMING] else [SIGNING, CONFIRMING]
    case DestinationVerify | SettlementComplete => [COMPLETED]
  }

  function RunRequests(steps: seq<Step>, c: Circumstances): seq<Status> {
    if steps == [] then [] else RunRequests(steps[..|steps|-1], c) + Requests(steps[|steps|-1].kind, c)
  }

  /** The status request i finds, if all before it were accepted. */
  function Before(from: Status, requests: seq<Status>, i: nat): Status
    requires i <= |requests|
  {
    if i == 0 then from else requests[i-1]
  }

  /** Accepted up to n, and there the list ends or is refused. */
  lemma {:induction false} FollowsTo(from: Status, requests: seq<Status>, n: nat)
    requires n <= |requests| && forall i :: 0 <= i < n ==> Accepts(Before(from, requests, i), requests[i])
    requires n < |requests| ==> !Accepts(Before(from, requests, n), requests[n])
    ensures Follow(Some(from), requests) == if n < |requests| then None else Some(Before(from, requests, n))
    decreases requests
  {
    if requests != [] && n > 0 {
      var rest := requests[1..];
      forall i | 0 <= i < |requests| ensures Before(requests[0], rest, i) == Before(from, requests, i + 1) {}
      FollowsTo(requests[0], rest, n - 1);
    } else if requests != [] {
      RefusedStays(requests[1..]);
    }
  }

  lemma SimulationLeads(from: Status, c: Circumstances)
    requires from == IDLE || from == CONFIRMING
    ensures Follow(Some(from), Requests(Validation, c)) == Follow(Some(from), Requests(BridgeQuoteRefresh, c)) == Some(SIMULATED)
  {
    FollowsTo(from, Requests(Validation, c), 2);
  }

  lemma ApprovalLeads(c: Circumstances)
    ensures Follow(Some(SIMULATED), Requests(Approval, c)) == Some(if c.allowance.Unchecked? then SIMULATED else APPROVED)
  {
    FollowsTo(SIMULATED, Requests(Approval, c), |Requests(Approval, c)|);
  }

  lemma SwapLeads(from: Status, c: Circumstances)
    requires from == SIMULATED || from == APPROVED
    ensures Follow(Some(from), Requests(SourceSwap, c)) == if c.solana then None else Some(CONFIRMING)
  {
    FollowsTo(from, Requests(SourceSwap, c), 5);
  }

  lemma DepositLeads(from: Status, c: Circumstances)
    requires from == SIMULATED || from == APPROVED
    ensures Follow(Some(from), Requests(BridgeDeposit, c)) == if c.depositShort then None else Some(BRIDGE_IN_FLIGHT)
  {
    FollowsTo(from, Requests(BridgeDeposit, c), if c.depositShort then 1 else 6);
  }

  lemma WaitLeads(c: Circumstances)
    ensures Follow(Some(BRIDGE_IN_FLIGHT), Requests(BridgeRelayWait, c)) == if c.tracked then None else Some(BRIDGE_IN_FLIGHT)
  {
    FollowsTo(BRIDGE_IN_FLIGHT, Requests(BridgeRelayWait, c), if c.tracked then 3 else 1);
  }

  lemma DestinationSwapRefused(c: Circumstances)
    ensures Follow(Some(BRIDGE_IN_FLIGHT), Requests(DestinationSwap, c)) == None
  {
    FollowsTo(BRIDGE_IN_FLIGHT, Requests(DestinationSwap, c), 0);
  }

  lemma EndLeads(from: Status, c: Circumstances)
    requires from in {CONFIRMING, BRIDGE_IN_FLIGHT, COMPLETED}
    ensures Follow(Some(from), Requests(DestinationVerify, c)) == Follow(Some(from), Requests(SettlementComplete, c)) == Some(COMPLETED)
  {
    FollowsTo(from, [COMPLETED], 1);
  }

  // ----- First runs of built plans -----

  /** Where the first k slots' steps leave a fresh machine. */
  function AfterSlots(inp: Input, c: Circumstances, k: nat): Option<Status>
    requires k <= 9
  {
    Follow(Some(IDLE), RunRequests(Collect(inp, k), c))
  }

  lemma AfterMore(inp: Input, c: Circumstances, k: nat)
    requires k < 9
    ensures AfterSlots(inp, c, k + 1) == if Slot(inp, k).Some? then Follow(AfterSlots(inp, c, k), Requests(SlotKind(k), c)) else AfterSlots(inp, c, k)
  {
    OneSlotMore(Slots(inp), k);
    var steps := Collect(inp, k);
    if Slot(inp, k).Some? {
      var s := Slot(inp, k).value;
      assert (steps + [s])[..|steps + [s]|-1] == steps;
      FollowBoth(Some(IDLE), RunRequests(steps, c), Requests(s.kind, c));
    } else {
      assert steps + [] == steps;
    }
  }

  lemma {:induction false} SameRequests(a: seq<Step>, b: seq<Step>, c: Circumstances)
    requires |a| == |b| && forall i :: 0 <= i < |a| ==> a[i].kind == b[i].kind
    ensures RunRequests(a, c) == RunRequests(b, c)
  {
    if a != [] { SameRequests(a[..|a|-1], b[..|b|-1], c); }
  }

  /** The machine's place after each slot, as long as nothing is refused. */
  function Place(inp: Input, c: Circumstances, k: nat): Option<Status>
    requires k <= 9
  {
    var cross, swaps := inp.CrossChain(), !inp.CrossChain() || inp.SourceDex().Some?;
    var start := if Slot(inp, 1).Some? && !c.allowance.Unchecked? then APPROVED else SIMULATED;
    if k == 0 then Some(IDLE)
    else if k == 1 then Some(SIMULATED)
    else if k == 2 then Some(start)
    else if swaps && c.solana then None
    else if !cross then Some(if k <= 7 then CONFIRMING else COMPLETED)
    else if k == 3 then Some(if swaps then CONFIRMING else start)
    else if k == 4 then Some(if swaps then SIMULATED else start)
    else if c.depositShort then None
    else if k == 5 then Some(BRIDGE_IN_FLIGHT)
    else if c.tracked then None
    else if k == 6 then Some(BRIDGE_IN_FLIGHT)
    else if inp.DestSwapRuns() then None
    else if k == 7 then Some(BRIDGE_IN_FLIGHT)
    else Some(COMPLETED)
  }

  lemma PlaceStep(inp: Input, c: Circumstances, k: nat)
    requires k < 9
    ensures Place(inp, c, k + 1) == if Slot(inp, k).Some? then Follow(Place(inp, c, k), Requests(SlotKind(k), c)) else Place(inp, c, k)
  {
    if Place(inp, c, k).None? {
      RefusedStays(Requests(SlotKind(k), c));
    } else {
      if k < 4 { EarlyStep(inp, c, k); } else { LateStep(inp, c, k); }
    }
  }

  lemma EarlyStep(inp: Input, c: Circumstances, k: nat)
    requires k < 4 && Place(inp, c, k).Some?
    ensures Place(inp, c, k + 1) == if Slot(inp, k).Some? then Follow(Place(inp, c, k), Requests(SlotKind(k), c)) else Place(inp, c, k)
  {
    var from := Place(inp, c, k).value;
    if k == 0 { SimulationLeads(from, c); }
    if k == 1 { ApprovalLeads(c); }
    if k == 2 && Slot(inp, 2).Some? { SwapLeads(from, c); }
    if k == 3 && Slot(inp, 3).Some? { SimulationLeads(from, c); }
  }

  lemma LateStep(inp: Input, c: Circumstances, k: nat)
    requires 4 <= k < 9 && Place(inp, c, k).Some?
    ensures Place(inp, c, k + 1) == if Slot(inp, k).Some? then Follow(Place(inp, c, k), Requests(SlotKind(k), c)) else Place(inp, c, k)
  {
    var from := Place(inp, c, k).value;
    if k == 4 && Slot(inp, 4).Some? { DepositLeads(from, c); }
    if k == 5 && Slot(inp, 5).Some? { WaitLeads(c); }
    if k == 6 && Slot(inp, 6).Some? { DestinationSwapRefused(c); }
    if k == 7 || k == 8 { EndLeads(from, c); }
  }

  lemma {:induction false} PlacesReached(inp: Input, c: Circumstances, k: nat)
    requires k <= 9
    ensures AfterSlots(inp, c, k) == Place(inp, c, k)
  {
    if k == 0 {
      assert Slots(inp)[..0] == [];
    } else {
      PlacesReached(inp, c, k - 1);
      AfterMore(inp, c, k - 1);
      PlaceStep(inp, c, k - 1);
    }
  }

  /** A first run of a built plan, every step of which is executed on a fresh machine, has all its
      requests accepted exactly when its source swap, if any, is not on SOLANA and, across chains, the
      deposit needs no approval of its own, the wait is not tracked, and there is no destination swap. */
  lemma FirstRunAccepted(inp: Input, c: Circumstances)
    ensures Follow(Some(IDLE), RunRequests(BuiltSteps(inp), c)).Some? <==>
            && !(c.solana && (!inp.CrossChain() || inp.SourceDex().Some?))
            && (inp.CrossChain() ==> !c.depositShort && !c.tracked && !inp.DestSwapRuns())
  {
    LinkedRequests(Collect(inp, 9), c);
    PlacesReached(inp, c, 9);
    PlaceAtEnd(inp, c);
  }

  lemma LinkedRequests(bare: seq<Step>, c: Circumstances)
    ensures RunRequests(Link(bare), c) == RunRequests(bare, c)
  {
    SameRequests(Link(bare), bare, c);
  }

  lemma PlaceAtEnd(inp: Input, c: Circumstances)
    ensures Place(inp, c, 9).Some? <==>
            && !(c.solana && (!inp.CrossChain() || inp.SourceDex().Some?))
            && (inp.CrossChain() ==> !c.depositShort && !c.tracked && !inp.DestSwapRuns())
  {
  }

  /** A fresh machine accepts any number of skipped steps. */
  lemma {:induction false} SkipsAccepted(n: nat)
    ensures Follow(Some(IDLE), seq(n, _ => CONFIRMING)) == Some(if n == 0 then IDLE else CONFIRMING)
  {
    FollowsTo(IDLE, seq(n, _ => CONFIRMING), n);
  }
}
