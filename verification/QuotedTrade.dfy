/** How executeTrade comes by its plan: given, or built from a quote's route. It goes on with
    ExecutionCoordinator.ExecuteTrade on the plan obtained. */
module QuotedTrade {
  import opened Js
  import opened PlanModel
  import opened PlanBuilder
  import opened Coordinator
  import PlanBuilderLaws
  import PlanValidator

  /** What the caller hands over: a plan, a quote that carries one, a quote with a route, or neither.
      Of a route, `built` is what the aggregator's buildExecution answers, None if it throws or has nothing. */
  datatype Source =
    | Given(plan: ExecutionPlan)
    | Routed(input: Input, built: Option<RouteExecution>)
    | Nothing

  /** A route without execution details gets those the aggregator builds, and is then taken for executable. */
  function Prepared(route: Route, user: string, built: Option<RouteExecution>): Route {
    if route.execution.None? && user != "" && (route.crossChainQuote.Some? || route.dexQuote.Some?) && built.Some?
    then route.(execution := built, isExecutable := Some(true), unexecutableReason := None)
    else route
  }

  /** The request and options the plan is built from: whoever is paid, the plan is for them. */
  function Asked(inp: Input, user: string, built: Option<RouteExecution>): Input {
    var recipient := Or(inp.request.recipientAddress, Some(user));
    inp.(route := Prepared(inp.route, user, built),
         request := inp.request.(userWalletAddress := Some(user), recipientAddress := recipient),
         userAddress := Some(user), recipientOption := recipient)
  }

  /** What a quoted plan is built from: the quote's request and route, for the user, paying the quote's recipient
      or else the user; a route without execution takes what the aggregator builds, if it builds anything. */
  lemma AskedSays(inp: Input, user: string, built: Option<RouteExecution>)
    ensures var asked := Asked(inp, user, built);
            var takes := inp.route.execution == None && built != None && user != ""
                         && (inp.route.crossChainQuote != None || inp.route.dexQuote != None);
            && asked.request.sourceChainId == inp.request.sourceChainId && asked.request.destinationChainId == inp.request.destinationChainId
            && asked.request.tokenIn == inp.request.tokenIn && asked.request.tokenOut == inp.request.tokenOut
            && asked.request.amountInRaw == inp.request.amountInRaw
            && asked.request.userWalletAddress == Some(user) && asked.userAddress == Some(user)
            && GivenOr(asked.request.recipientAddress, "") == GivenOr(inp.request.recipientAddress, user)
            && asked.recipientOption == asked.request.recipientAddress
            && asked.route.execution == (if takes then built else inp.route.execution)
            && asked.route.isExecutable == (if takes then Some(true) else inp.route.isExecutable)
            && asked.route.unexecutableReason == (if takes then None else inp.route.unexecutableReason)
            && asked.route == inp.route.(execution := asked.route.execution, isExecutable := asked.route.isExecutable,
                                         unexecutableReason := asked.route.unexecutableReason)
            && asked.host == inp.host && asked.lookups == inp.lookups && asked.planId == inp.planId
  {
  }

  /** Plan objects for a built plan. */
  method NewPlan(p: Plan) returns (plan: ExecutionPlan)
    ensures fresh(plan) && fresh(plan.steps) && plan.View() == p
  {
    var steps: seq<PlanStep> := [];
    for i := 0 to |p.steps|
      invariant |steps| == i && fresh(steps) && forall j :: 0 <= j < i ==> steps[j].fields == p.steps[j]
    {
      var s := new PlanStep(p.steps[i]);
      steps := steps + [s];
    }
    plan := new ExecutionPlan(p.header, steps);
    assert plan.Steps() == p.steps;
  }

  function PlanObject(source: Source): set<object> { if source.Given? then {source.plan} else {} }
  function StepObjects(source: Source): seq<PlanStep> { if source.Given? then source.plan.steps else [] }

  /** The plan a source leads to, if it leads to one. */
  function PlanOf(source: Source, user: string): Option<Plan>
    reads PlanObject(source), StepObjects(source)
  {
    match source
    case Given(plan) => Some(plan.View())
    case Routed(input, built) =>
      var asked := Asked(input, user, built);
      if asked.AddressesValid() then Some(BuiltPlan(asked)) else None
    case Nothing => None
  }

  /** None where executeTrade throws before it has a plan: for want of a source, or over an invalid address. */
  method ObtainPlan(source: Source, user: string) returns (plan: Option<ExecutionPlan>)
    ensures plan.Some? <==> PlanOf(source, user).Some?
    ensures plan.Some? ==> plan.value.View() == PlanOf(source, user).value
    ensures plan.Some? && source.Given? ==> plan.value == source.plan
    ensures plan.Some? && !source.Given? ==> fresh(plan.value) && fresh(plan.value.steps)
  {
    match source
    case Given(p) => plan := Some(p);
    case Nothing => plan := None;
    case Routed(input, built) =>
      var r := BuildPlan(Asked(input, user, built));
      if r.InvalidAddress? { return None; }
      var p := NewPlan(r.plan);
      plan := Some(p);
  }

  // ----- From the route to the loop -----

  /** The caller speaks of the quote the route comes from. */
  predicate SameQuote(inp: Input, c: Caller) {
    c.quotedRecipient == inp.request.recipientAddress && c.quotedUser == inp.request.userWalletAddress
  }

  /** Whom a quote's trade pays: the quote's recipient, else the user, else the quote's wallet. */
  function Payee(inp: Input, user: string): string {
    OrEmpty(Or(inp.request.recipientAddress, Or(Some(user), inp.request.userWalletAddress)))
  }

  /** From a quote's route to the first step, in the route's terms: the built plan gets past validator
      and gates exactly when the route is executable, its quote coherent, none of the three families of
      failing steps occurs, the quote pays the user, both tokens may be traded, and no signer is missing. */
  lemma QuotedMayStart(inp: Input, built: Option<RouteExecution>, c: Caller)
    requires SameQuote(inp, c)
    requires PlanBuilderLaws.ReadsDecimals(inp.host) && PlanBuilderLaws.WellFormed(Asked(inp, c.user, built))
    requires PlanValidator.HeaderOk(inp.host, inp.lookups, BuiltPlan(Asked(inp, c.user, built)).header)
    ensures var asked := Asked(inp, c.user, built);
            MayStart(inp.host, inp.lookups, BuiltPlan(asked), c) <==>
              && Executable(asked) && PlanBuilderLaws.Coherent(asked)
              && !PlanBuilderLaws.NobodyToApprove(asked) && !PlanBuilderLaws.SwapWithoutCalldata(asked)
              && !PlanBuilderLaws.DestinationWithoutTarget(asked)
              && inp.host.lower(c.user) == inp.host.lower(Payee(inp, c.user)) && c.tokenInTradeable && c.tokenOutTradeable
              && !(inp.SourceChain().Some? && inp.SourceChain().value.environment == Some(EvmChain) && !c.signer)
  {
    var asked := Asked(inp, c.user, built);
    PlanBuilderLaws.BuilderMeetsValidator(asked);
    PlanBuilderLaws.BuiltPlanFacts(asked);
    AskedRecipient(inp, c.user, built);
    ExpectedIsPayee(BuiltPlan(asked).header, inp, c);
  }

  lemma AskedRecipient(inp: Input, user: string, built: Option<RouteExecution>)
    ensures Asked(inp, user, built).Recipient() == Or(inp.request.recipientAddress, Some(user))
  {
  }

  lemma ExpectedIsPayee(h: Header, inp: Input, c: Caller)
    requires SameQuote(inp, c) && h.extras.recipient == Or(inp.request.recipientAddress, Some(c.user))
    ensures ExpectedRecipient(h, c) == Payee(inp, c.user)
  {
  }
}
