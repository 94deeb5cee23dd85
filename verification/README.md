# Verified model of the ZENITH execution-plan engine

This project models, in Dafny, how ZENITH validates, orders, seals, builds and runs cross-chain
execution plans, how several coordinators share one repository, how the two operator-gated runners
broadcast, and how the chain registry indexes its configurations. `dafny verify dfyconfig.toml` checks
all of it.

The plan engine lives in `packages/execution/src/executionPlanBuilder.ts`:

- `CanonicalJson`, `JsonReading`, `CanonicalJsonLaws`: the canonical serialization and, through a parser
  that undoes it, the theorem that two trees print alike exactly when they are equal up to object key order.
- `PlanGraph`, `KahnOrder`, `KahnDepth`, `KahnTies`: the depth-first cycle check and Kahn's ordering, written
  as the step-by-step algorithms they are. The order is a permutation, dependencies first, sorted by depth,
  and which of two steps comes first is decided exactly.
- `PlanModel`, `PlanSeal`, `PlanValidator`, `PlanBuilder`: plans and their shared step objects, the seal, the
  validator and the builder. `SealLaws`, `ValidatorLaws` and `BuiltPlanLaws` say, field by field, what the seal
  protects, what the validator asks, and what a built plan says; `PlanBuilderLaws` when the last two agree.

The coordinator lives in `packages/execution/src/executionCoordinator.ts`:

- `RunModel` says what a run looks like (a sequence of turns), `RunLaws` derives the safety properties of
  every such run, and `Replay` those of every sequence of trades on one coordinator. `StepWrites`,
  `StepActions`, `TurnRules` and `Coordinator` are the run itself: methods over mutable step objects and the
  coordinator's registry, proved to produce nothing but runs of that shape.
- `Environment` is the world as a run sees it: what repository, adapters, providers and state machine answer
  about each step, arbitrary but fixed. `StepRules` says what these answers make of a step, the methods are
  proved to keep to it, and `WorldLaws` draws the conclusions for whole trades.
- `TransactionStatuses` is the state machine a run reports to (`stateMachine.ts`), and which runs it accepts.
- `QuotedTrade` is how executeTrade obtains its plan from a quote, and when the loop is then entered.
- `Workers` is the same loop as a transition system: any number of runs, under worker ids that may or may
  not differ, interleaved arbitrarily over shared step records and leases. `WorkerTurns` proves that every
  iteration of the coordinator's loop is a stretch of such moves.

The runners (`scripts/`) are `CompositeRunner` and `PolygonRunner`, each a method over a record of
arbitrary answers from the world; `Broadcasts` holds what they may send, `CompositePlan` the plan the first
builds for itself, and `AcrossRequest` the test on which the second's quote requests fail. `JsonText` and
`PlanFingerprint` are the second serialization, the plain JSON text the Polygon runner hashes its plan with,
read back by the same parser. `ChainRegistry` is `packages/chains/src/registry.ts`. `Js` holds the few host-language
notions the model shares.

`GateRows` is how a runner's exits are stated: gates in a row, each with the answer it gives when closed.

How it fits together: a method is proved against a function or relation on values (`TopologicalOrder`,
`Canon`, `TurnOk`, `TradeOk`, `TraceOf`, `Found`), and the properties are lemmas about that. The ghost
text of an action (`Did(...)`, `Broadcast`) is appended where the call is made, so a send that throws
still counts as made.

## What the code does not promise

Several properties one would expect turn out to hold only under a condition. Each condition is stated
exactly, and each has an input that breaks it.

- A step can be executed to SUCCESS twice. The in-memory repository rejects every transition out of
  FAILED, SKIPPED and ERROR, and the coordinator ignores the rejected write. A retry that succeeds after a
  persisted FAILED therefore leaves the record at FAILED, and another worker may run the step again
  (`Workers.StrictExecutesTwice`). With a repository that takes the SUCCESS the property holds
  (`Workers.ExecutedOnce`), for workers with ids of their own: a lease is granted again to the id that
  holds it, so two concurrent calls on one coordinator both execute (`Workers.SharedIdExecutesTwice`).
- The seal does not cover everything: whether a plan claims to be executable, its mode, a step's environment,
  and the output and minimum a swap states can be changed in a sealed plan unnoticed
  (`SealLaws.UnsealedChangesPass`; what it does cover, exactly: `SealLaws.SealProtects`).
- The seal is lost by two writes that are not followed by a new seal, exactly when they change the
  hashed amount (`StepWrites.AmountWrite`, `StepActions.DepositKeepsSealExactly`, `RunLaws.SealFollowsWrites`;
  an input: `StepActions.DepositLosesSeal`).
- A replayed plan makes no outside call, but its receipt can differ (`Replay.ReplayReceiptExactly` says
  when). A relay wait that was not tracked registers no hash, so a hash already on the step object comes
  to the surface, and the status changes with it (`Replay.ReplayChangesStatus`).
- A release that throws ends the run with the last step's lease still taken (`RunLaws.LeasesReleased`;
  an input: `Replay.LeaseCanStay`).
- A run can throw on its own status reports. A first run of a built plan has them all accepted exactly when
  no source swap runs on SOLANA and, across chains, the adapter need not approve the deposit's token, the
  wait is not tracked and there is no destination swap (`TransactionStatuses.FirstRunAccepted`). A tracked
  wait is refused after its step has been registered as SUCCESS (`WaitLeads`); a later call that skips every
  step is accepted (`SkipsAccepted`).
- `isExecutable` does not imply that every step validates. Built steps fail validateStep in three families
  (`PlanBuilderLaws.BuiltStepsValidate`), each with an executable plan in it: `SwapWithoutCalldataOccurs`,
  `DestinationWithoutTargetOccurs`, `NobodyToApproveOccurs`.
- The builder's composite plan passes the composite check if and only if its quote is coherent
  (`PlanBuilderLaws.CompositeAgreement`; an input: `PlanBuilderLaws.IncoherentQuoteRefused`).
- A lone `undefined` inside an array prints like an empty array (`CanonicalJsonLaws.LoneUndefinedCollides`).
- In the composite runner the refusal of an unconfirmed bridge is written to the audit log with the swap's
  hash among the quote identifiers, where the log's own check throws on any 32-byte hash; the caller then
  sees an exception, not the refusal (`CompositeRunner.Run`, `CompositeRunner.RealHashesAreLong`).
- The composite runner never reports success. Once swap, deposit and fill are all mined it calls
  `updatePlanStatus`, which its repository does not have, and throws (`CompositeRunner.Run`; an input:
  `CompositeRunner.SettledRunThrows`).
- The composite runner's chain allow-list and funding gates apply in mode LIVE_TESTNET only; any other mode
  text that is neither READ_ONLY nor PREFLIGHT_ONLY, and that the audit log takes, goes on without them
  (`CompositeRunner.UngatedSendsExactly`; an input: `CompositeRunner.OtherModeSendsUnlisted`). A key is
  needed in every mode.
- The quote the composite runner makes up when it gets none lacks a field its own summary formats, so such
  a run throws before the operator is asked (`CompositeRunner.FallbackQuoteSendsNothing`).
- The Polygon runner does not compare the fresh quote with the swap's output: it would send whatever the
  quote names (`PolygonRunner.QuoteDecidesDeposit`). That the deposit is the output after all rests on its
  request: it names the chains by number, on which the provider throws, and the runner then makes the call
  up itself (`PolygonRunner.OwnProviderDepositsOutput`). It also approves before the bridge confirmation is
  looked at, and a failed approval does not stop it (`PolygonRunner.ApprovalUnguarded`).
- A chain key registered again under another chain id is still found under the old one
  (`ChainRegistry.StaleIndexEntry`).

## Model

| member | source | states |
|---|---|---|
| CanonicalJsonLaws.PrintDecidesSameness | packages/execution/src/executionPlanBuilder.ts:25-34 | two trees of any depth in which no object repeats a key print the same text if and only if they are equal up to object key order, with an array of a lone undefined counted as the empty array |
| CanonicalJsonLaws.PrintDecidesCanon | packages/execution/src/executionPlanBuilder.ts:25-34 | equal texts if and only if equal sorted forms, for every tree |
| CanonicalJsonLaws.ParsePrint | packages/execution/src/executionPlanBuilder.ts:25-34 | a recursive-descent parser reads the printed text of any tree back as its key-sorted form, whatever delimiter follows |
| CanonicalJsonLaws.PrintCanon | packages/execution/src/executionPlanBuilder.ts:25-34 | a tree and its key-sorted form print the same text |
| CanonicalJsonLaws.CanonDecides | packages/execution/src/executionPlanBuilder.ts:25-34 | sorted forms coincide exactly for trees equal up to key order |
| CanonicalJsonLaws.LoneUndefinedCollides | packages/execution/src/executionPlanBuilder.ts:28-31 | the one input shape outside the theorem, with the collision it causes |
| CanonicalJsonLaws.SortSorts | packages/execution/src/executionPlanBuilder.ts:32-33 | sorting keys by UTF-16 code units gives a sorted permutation |
| CanonicalJsonLaws.SortUnique | packages/execution/src/executionPlanBuilder.ts:32-33 | field lists with distinct keys and the same fields sort to the same list |
| CanonicalJsonLaws.KeysInOrder | packages/execution/src/executionPlanBuilder.ts:32-33 | of two keys the one with the smaller UTF-16 unit at their first difference comes first, and a beginning comes before what extends it |
| CanonicalJsonLaws.SurrogatesComeEarly | packages/execution/src/executionPlanBuilder.ts:32-33 | so U+10000 sorts before U+FFFF |
| PlanSeal.PayloadTextInjective | packages/execution/src/executionPlanBuilder.ts:35-77 | two plan payloads have the same hashed text if and only if they are the same payload |
| PlanSeal.TamperEvidence | packages/execution/src/executionPlanBuilder.ts:85-99 | with a collision-free hash, a plan carrying another plan's seal passes the integrity check exactly when their payloads are equal |
| PlanSeal.SealVerifiesAndIsIdempotent | packages/execution/src/executionPlanBuilder.ts:78-84 | sealing always verifies, changes no hashed field, and sealing again changes nothing |
| SealLaws.SealProtects | packages/execution/src/executionPlanBuilder.ts:35-99 | with a collision-free hash, a plan carrying another plan's seal passes the check if and only if the two agree in every sealed header and step field, each named, addresses and calldata up to case, absent fields as their defaults |
| SealLaws.RecipientIsSealed | packages/execution/src/executionPlanBuilder.ts:51 | a sealed plan whose recipient is replaced passes exactly when the new address is the old one up to case |
| SealLaws.UnsealedChangesPass | packages/execution/src/executionPlanBuilder.ts:36-74 | changes to the executable flag, reason, mode, token symbols, step environments and stated swap outputs of a sealed plan are never noticed |
| SealLaws.ComparesWith | packages/execution/src/executionPlanBuilder.ts:85-99 | the check compares with the hash it is handed, else integrityHash, else planHash, and passes without any |
| PlanSeal.ProgressKeepsSeal | packages/execution/src/executionPlanBuilder.ts:35-77 | changes to status, transaction hash and error never break or repair a seal |
| PlanSeal.SealPlan | packages/execution/src/executionPlanBuilder.ts:78-84 | writes the recomputed hash into both hash fields of the plan object and nothing else |
| PlanGraph.ValidateDependencyGraph | packages/execution/src/executionPlanBuilder.ts:284-330 | returns normally if and only if ids are distinct, every dependency names a step and no closed dependency path exists; a reported cycle is a real closed path |
| PlanGraph.FindDuplicate | packages/execution/src/executionPlanBuilder.ts:285-291 | reports a step id that occurs twice, or that all are distinct |
| PlanGraph.FindBadEdge | packages/execution/src/executionPlanBuilder.ts:292-301 | reports a dependency on a step that does not exist, or that all exist |
| PlanGraph.FindCycle | packages/execution/src/executionPlanBuilder.ts:303-329 | finds a closed dependency path if and only if there is one |
| PlanGraph.CycleCheck.Check | packages/execution/src/executionPlanBuilder.ts:308-324 | the recursive visit with visiting and visited sets and a path stack: ends on every graph, and either returns a real cycle or leaves the node finished |
| PlanGraph.CycleCheck.CheckDependencies | packages/execution/src/executionPlanBuilder.ts:311-320 | the visit's loop over dependencies keeps the stack a dependency walk |
| PlanGraph.CycleCheck.CheckDependency | packages/execution/src/executionPlanBuilder.ts:312-319 | one dependency: a node on the stack closes a cycle, a finished one is skipped, any other is visited |
| PlanGraph.DepsFirstAcyclic | packages/execution/src/executionPlanBuilder.ts:302-329 | a graph whose steps can be listed after their dependencies has no cycle |
| PlanGraph.TransitiveDepsFirst | packages/execution/src/executionPlanBuilder.ts:331-365 | along a dependencies-first list every transitive dependency comes strictly earlier |
| KahnOrder.GetTopologicalOrder | packages/execution/src/executionPlanBuilder.ts:331-365 | rejects exactly what the validator rejects, and otherwise returns the order the step-by-step specification gives |
| KahnOrder.OrderIsPermutation | packages/execution/src/executionPlanBuilder.ts:331-365 | on every valid graph the order is a permutation of the steps, each after all its dependencies |
| KahnOrder.AfterInv | packages/execution/src/executionPlanBuilder.ts:346-363 | after any number of turns each remaining in-degree equals the number of unprocessed dependency occurrences, counting duplicates, and is zero exactly for queued or finished steps |
| KahnOrder.QueuedOnce | packages/execution/src/executionPlanBuilder.ts:346-363 | the ids ever queued only grow at the end and never repeat |
| KahnOrder.FallbackNeverFires | packages/execution/src/executionPlanBuilder.ts:355-361 | just before any decrement the in-degree is present and at least one, so the fallback for a zero never applies |
| KahnOrder.NothingLeft | packages/execution/src/executionPlanBuilder.ts:346-365 | a queue that runs dry with steps left would give a closed dependency path |
| KahnOrder.StuckSetHasCycle | packages/execution/src/executionPlanBuilder.ts:346-365 | a non-empty set of steps each depending on another of the set contains a closed path |
| KahnOrder.AddEdges | packages/execution/src/executionPlanBuilder.ts:341-345 | records one edge per dependency occurrence, duplicates included |
| KahnOrder.BuildGraph | packages/execution/src/executionPlanBuilder.ts:335-345 | the adjacency lists hold each step's dependents in listing order |
| KahnOrder.RelaxAll | packages/execution/src/executionPlanBuilder.ts:355-362 | decrementing the dependents of a finished step is the specification's turn |
| KahnOrder.DrainQueue | packages/execution/src/executionPlanBuilder.ts:346-365 | the queue loop ends with the specification's order |
| KahnDepth.DepthNeverDecreases | packages/execution/src/executionPlanBuilder.ts:346-363 | whatever dependency chain hangs below a step of the order, a chain at least as long hangs below every later step |
| KahnDepth.ChainOrder | packages/execution/src/executionPlanBuilder.ts:331-365 | steps that each depend on exactly the one before form a valid graph whose order is the listing |
| KahnTies.OrderExactly | packages/execution/src/executionPlanBuilder.ts:331-365 | for every two steps of every valid graph, which comes first: the one whose last dependency comes first, and of two with the same last dependency, or none, the one listed first |
| PlanValidator.ValidateCompositePlan | packages/execution/src/executionPlanBuilder.ts:251-283 | accepts exactly the plans whose swap and deposit agree on chain, token, amount and minimum, with the swap placed first in the order |
| PlanValidator.ValidateHeader | packages/execution/src/executionPlanBuilder.ts:109-166 | passes exactly the headers with ids, known chains, tokens with valid addresses, positive amounts, a non-negative minimum, and a reason when not executable |
| PlanValidator.ValidateStep | packages/execution/src/executionPlanBuilder.ts:177-250 | passes exactly the steps on a known chain of their environment and on their side of the route, with a sendable call if the plan claims to be executable, and with token, spender and positive amount if they approve |
| PlanValidator.ValidateSteps | packages/execution/src/executionPlanBuilder.ts:168-170 | passes exactly when every step does |
| PlanValidator.ValidatePlan | packages/execution/src/executionPlanBuilder.ts:104-176 | accepts if and only if the seal holds, header and steps pass every check, the graph is valid and swap and deposit agree |
| PlanValidator.SwapPlacedBeforeDeposit | packages/execution/src/executionPlanBuilder.ts:276-281 | in every accepted plan's order the first swap comes before the first deposit |
| ValidatorLaws.AcceptedExactly | packages/execution/src/executionPlanBuilder.ts:104-283 | the validator accepts exactly the plans that keep the rules spelled out for seal, header, every kind of step, graph and the swap that feeds a deposit |
| ValidatorLaws.StepRulesExactly | packages/execution/src/executionPlanBuilder.ts:177-250 | the step check, kind by kind: its chain, environment, call and approval, no more and no less |
| ValidatorLaws.HeaderRulesExactly | packages/execution/src/executionPlanBuilder.ts:109-166 | the header check: ids, known chains, named tokens, amounts of at least 1, 1 and 0, and a reason when not executable |
| ValidatorLaws.CompositeExactly | packages/execution/src/executionPlanBuilder.ts:251-283 | the composite check: the first swap feeds the first deposit, on the source chain, in its token and amount, and before it |
| PlanBuilder.BuildPlan | packages/execution/src/executionPlanBuilder.ts:369-779 | refuses exactly the invalid addresses, and otherwise returns the sealed plan of the header, reason, mode and linked steps the route determines |
| PlanBuilder.BuildSteps | packages/execution/src/executionPlanBuilder.ts:414-737 | pushing steps with a running previous id gives the linked list of filled slots |
| PlanBuilder.ReasonOf | packages/execution/src/executionPlanBuilder.ts:395-744 | a plan has no reason exactly when it is executable, and a reason is never empty |
| PlanBuilder.CheckNetworks | packages/execution/src/executionPlanBuilder.ts:398-410 | the network test clears the flag exactly when it gives a reason |
| PlanBuilder.CheckRouterCall | packages/execution/src/executionPlanBuilder.ts:462-476 | the router test keeps an earlier reason, and clears the flag exactly for a missing target |
| PlanBuilder.CheckBridgeCall | packages/execution/src/executionPlanBuilder.ts:587-600 | the bridge tests keep an earlier reason, and the target speaks before the calldata |
| PlanBuilder.CheckDestSwap | packages/execution/src/executionPlanBuilder.ts:638-704 | the destination swap is missing exactly without calldata or in mode UNSUPPORTED, and the mode it leaves |
| PlanBuilder.BuildReason | packages/execution/src/executionPlanBuilder.ts:395-744 | the flag, the reason and the mode after all the branches that set or override them: composite swaps override, everything else only fills in |
| PlanBuilderLaws.BuiltStepsAreAChain | packages/execution/src/executionPlanBuilder.ts:414-737 | for every route and request ids are distinct, each step depends on exactly the one before, the graph is valid and the order is the listing itself |
| PlanBuilderLaws.ApprovalBuiltExactly | packages/execution/src/executionPlanBuilder.ts:430-460 | a built plan asks for an approval exactly when it spends a token that is not native on a chain that is EVM or of no stated environment |
| PlanBuilderLaws.CompositeAgreement | packages/execution/src/executionPlanBuilder.ts:520-620 | a built plan passes the composite check if and only if its quote names a matching connector token and its minimum is within its output |
| BuiltPlanLaws.StepsBuilt | packages/execution/src/executionPlanBuilder.ts:413-737 | for every route and request, which kinds of steps a plan has, and in which order |
| BuiltPlanLaws.StepSays | packages/execution/src/executionPlanBuilder.ts:416-736 | every step, by its kind, in the route's terms: id, chain, environment, call, value sent, spender, token, amount, stated output and minimum, each with its defaults, and the one step it depends on |
| BuiltPlanLaws.HeaderSays | packages/execution/src/executionPlanBuilder.ts:745-777 | the header in the route's terms: route, amounts, minimum and fee with their defaults, call, recipient, mode; executable exactly when networks, calls and swaps are ready; and the reason when not |
| BuiltPlanLaws.ReasonExactly | packages/execution/src/executionPlanBuilder.ts:395-744 | which reason a plan gives: a missing swap, the last before the first, then the networks, the route's call, the route's own flag |
| BuiltPlanLaws.AmountsFlow | packages/execution/src/executionPlanBuilder.ts:432-620 | approval and first payment are what the plan pays in; what a first swap promises is what refresh and deposit take, and a deposit with nothing before it takes what the plan pays in |
| PlanBuilderLaws.BuiltPlanAccepted | packages/execution/src/executionPlanBuilder.ts:369-779 | the validator accepts a built plan exactly when its header and steps pass their checks and its quote is coherent |
| PlanBuilderLaws.BuiltStepsValidate | packages/execution/src/executionPlanBuilder.ts:177-250 | for every route whose given texts are well formed, the built steps pass validateStep except in exactly three families: nobody to approve on an EVM chain, and, off SOLANA, an executable same-chain swap without calldata or an executable destination swap without a target |
| PlanBuilderLaws.BuilderMeetsValidator | packages/execution/src/executionPlanBuilder.ts:104-779 | so the validator accepts a built plan with a good header exactly when its quote is coherent and none of the three families occurs |
| PlanBuilderLaws.ExecutableStepsRunnable | packages/execution/src/executionPlanBuilder.ts:462-690 | in an executable plan the value-moving steps have target and calldata with two exceptions, each exactly when the route lacks the piece: a same-chain swap's calldata and a destination swap's target |
| PlanBuilderLaws.SwapWithoutCalldataOccurs | packages/execution/src/executionPlanBuilder.ts:462-476 | a concrete same-chain input whose plan is executable although its swap has no calldata and fails validateStep |
| PlanBuilderLaws.DestinationWithoutTargetOccurs | packages/execution/src/executionPlanBuilder.ts:665-690 | a concrete solver route whose plan is executable although its destination swap has no target and fails validateStep |
| PlanBuilderLaws.NobodyToApproveOccurs | packages/execution/src/executionPlanBuilder.ts:432-460 | a concrete bridge route whose plan is executable although its approval names nobody and fails validateStep |
| PlanBuilderLaws.OtherChainsNeedNobody | packages/execution/src/executionPlanBuilder.ts:430-432 | the same route from a chain that is neither EVM nor SOLANA builds no approval, and every step of it validates |
| PlanBuilderLaws.IncoherentQuoteRefused | packages/execution/src/executionPlanBuilder.ts:269-273 | a concrete composite route whose executable plan fails the composite check |
| Coordinator.ExecutionCoordinator.ExecuteTrade | packages/execution/src/executionCoordinator.ts:121-793 | on a plan at hand: the loop is entered exactly when the plan is accepted, executable, and passes the recipient, risk and signer gates; what it then does is a run in the sense of RunModel; it finishes only with every step SUCCESS in plan, step map and registry; the dependency guard never fires; the trace is what its turns say, and the registry is the old one with exactly the completed turns' entries written |
| QuotedTrade.ObtainPlan | packages/execution/src/executionCoordinator.ts:64-120 | there is no plan exactly when there is neither plan nor route or an address of the route is invalid; a given plan is used as it is; a route is completed with what the aggregator builds, and its plan built for the user and the payee |
| QuotedTrade.QuotedMayStart | packages/execution/src/executionCoordinator.ts:64-158 | from a quote's well-formed route to the first step, in the route's terms: exactly when the route is executable, the quote coherent, none of the three families of failing steps occurs, the payee is the user, both tokens may be traded, and no EVM source chain lacks a signer |
| QuotedTrade.AskedSays | packages/execution/src/executionCoordinator.ts:73-115 | what a quoted plan is built from: the quote's request for the user, paying the quote's recipient or the user, and the route, with the aggregator's execution where it has none |
| WorldLaws.StartsExactly | packages/execution/src/executionCoordinator.ts:121-158 | the loop is entered exactly for plans that keep the validator's rules, are executable and pay the user, with tradeable tokens and, on an EVM chain, a signer |
| WorldLaws.SettingsAre | packages/execution/src/executionCoordinator.ts:135-140 | a run's settings are the caller's, but whether the source chain is SOLANA, the ends differ and the mode is UNSUPPORTED, which the plan decides |
| WorldLaws.PersistedSuccessSkipped | packages/execution/src/executionCoordinator.ts:209-226 | in every trade, a step the repository answers SUCCESS for is skipped, nothing is called for it, and it shows the first non-empty of the stored, registered and own hash |
| WorldLaws.RefusedLeaseStops | packages/execution/src/executionCoordinator.ts:203-207 | a step whose lease is refused or throws leaves no event at all, keeps its state, and ends the trade with that error |
| WorldLaws.CallsNeed | packages/execution/src/executionCoordinator.ts:204-231 | whatever is called for a step, its lease was granted, its record read, none of repository, registry and step said SUCCESS, and no transaction of it was uncertain |
| WorldLaws.UncertainStops | packages/execution/src/executionCoordinator.ts:227-231 | an unfinished step with an uncertain transaction ends the trade for recovery, with nothing called for it |
| WorldLaws.DepositSends | packages/execution/src/executionCoordinator.ts:460-501 | a deposit moves the known output, or else its step's amount; it succeeds exactly when the send returns, with that hash recorded, carried on and left on the step |
| WorldLaws.SwapSends | packages/execution/src/executionCoordinator.ts:323-389 | an EVM swap sends its step's amount once, and succeeds exactly when it is mined with an output of at least the stated minimum, which the run goes on with |
| Coordinator.ExecutionCoordinator.RunAccepted | packages/execution/src/executionCoordinator.ts:170-793 | past the gates at least one turn is made, and the receipt shows the last turn's hashes |
| Coordinator.ExecutionCoordinator.RunOrdered | packages/execution/src/executionCoordinator.ts:176-744 | the plan is ordered, its step map filled, and every step of the order visited unless one stops |
| Coordinator.ExecutionCoordinator.RunSteps | packages/execution/src/executionCoordinator.ts:196-744 | the step loop keeps: the turns follow the order, hand their state on, and all but the last succeed |
| Coordinator.ExecutionCoordinator.RunStep | packages/execution/src/executionCoordinator.ts:196-744 | one iteration: blocked exactly when a dependency is not SUCCESS; otherwise the skip rule holds and the registry entry is written exactly on completion |
| Coordinator.ExecutionCoordinator.TryLease | packages/execution/src/executionCoordinator.ts:203-744 | a lease that is refused or throws stops the run with nothing touched |
| Coordinator.ExecutionCoordinator.HoldLease | packages/execution/src/executionCoordinator.ts:208-744 | try and finally: the lease is given back whatever way the step ends, also when the state machine refuses its last status; when the release itself throws, the run stops and the lease stays taken |
| Coordinator.ExecutionCoordinator.Bracket | packages/execution/src/executionCoordinator.ts:208-743 | everything a step does to the outside world is traced after taking its lease, and the release is traced only if it returned |
| Coordinator.ExecutionCoordinator.UnderLease | packages/execution/src/executionCoordinator.ts:209-231 | a record that cannot be read executes nothing; otherwise the record that was read decides, with registry and step, whether the step is skipped, and the registry changes only with a success |
| Coordinator.ExecutionCoordinator.SkipOrRun | packages/execution/src/executionCoordinator.ts:209-231 | a step is skipped exactly when the stored record, the registry or the step itself says SUCCESS, and only otherwise run |
| Coordinator.ExecutionCoordinator.RunUnfinished | packages/execution/src/executionCoordinator.ts:228-231 | an unfinished step is executed only if its transactions could be read and none is uncertain; with an uncertain one nothing is called and recovery is asked for |
| Coordinator.ExecutionCoordinator.SkipStep | packages/execution/src/executionCoordinator.ts:212-226 | a skipped step takes the first non-empty of the stored, registered and own hash, and records it |
| Coordinator.ExecutionCoordinator.BlockStep | packages/execution/src/executionCoordinator.ts:196-202 | a blocked step is marked FAILED and does nothing else |
| Coordinator.CheckDependencies | packages/execution/src/executionCoordinator.ts:196-202 | true exactly when every dependency is SUCCESS in the step map |
| Coordinator.ExecuteStep | packages/execution/src/executionCoordinator.ts:232-730 | the executed step ends SUCCESS, FAILED or as it was, as its case ended, with the case's hash |
| Coordinator.Switch | packages/execution/src/executionCoordinator.ts:232-730 | every case of the switch obeys the rules of a turn for output, amounts, hashes and seal |
| Coordinator.StepMap | packages/execution/src/executionCoordinator.ts:177-178 | the step map starts with every step's own status |
| StepActions.DoApproval | packages/execution/src/executionCoordinator.ts:241-303 | the allowance is checked whenever the step names token, spender and amount; an approval is sent exactly when it is short, for exactly that amount; the step succeeds exactly when nothing throws, with the hash its send gives it, and is otherwise left as it was |
| StepActions.DoVerify | packages/execution/src/executionCoordinator.ts:702-722 | a cross-chain destination hash is verified before success; an unverified one marks the step FAILED |
| StepActions.DoSourceSwap | packages/execution/src/executionCoordinator.ts:304-388 | one send; a successful swap records the hash it returns; a known output is kept, a new one is what arrived with an EVM swap, and both meet the stated minimum or fail the step |
| StepActions.SettleSwapOutput | packages/execution/src/executionCoordinator.ts:351-372 | the output is extracted only if unknown, and in either case at least the stated minimum, or the step fails |
| StepActions.DoRefresh | packages/execution/src/executionCoordinator.ts:392-459 | asks for the known output or the step's amount, gives the first deposit that amount, and either reseals or leaves the seal broken exactly when the hashed amount changed |
| StepActions.AdoptQuote | packages/execution/src/executionCoordinator.ts:413-446 | with a quote the deposit is rewritten and the plan sealed anew |
| StepActions.RedirectedSays | packages/execution/src/executionCoordinator.ts:418-441 | the deposit takes the new amount, and target, calldata and spender where the quote gives them |
| StepActions.AdoptAmount | packages/execution/src/executionCoordinator.ts:447-453 | without a quote only the deposit's amount is written, with no new seal |
| StepActions.DoDeposit | packages/execution/src/executionCoordinator.ts:460-502 | exactly one transaction, with the known output as its amount if there is one, or none if the state machine refuses the signing; either way the step's own amount is rewritten before it, without a new seal, exactly when it differs |
| StepActions.DepositKeepsSealExactly | packages/execution/src/executionCoordinator.ts:460-463 | a deposit keeps the seal exactly when its amount already is the known output |
| StepActions.DepositLosesSeal | packages/execution/src/executionCoordinator.ts:460-463 | a concrete sealed plan that a deposit leaves unsealed |
| StepActions.DoRelayWait | packages/execution/src/executionCoordinator.ts:504-564 | a tracked wait succeeds exactly when the tracker settles with a destination hash, which it records; an untracked one records none |
| StepActions.DoDestinationSwap | packages/execution/src/executionCoordinator.ts:619-700 | one send, by the user's signer or a solver; success records and keeps the hash it returns, any failure marks the step FAILED, and an unsupported one only throws |
| StepWrites.AmountWrite | packages/execution/src/executionCoordinator.ts:447-463 | an amount written without sealing keeps the seal if the hashed amount is unchanged and breaks it otherwise |
| StepWrites.ProgressWrite | packages/execution/src/executionCoordinator.ts:232-744 | status, hash and error writes keep the seal and the deposit's amount |
| TurnRules.DependenciesReady | packages/execution/src/executionCoordinator.ts:196-202 | with every earlier step of the order SUCCESS, the guard lets the next step through |
| TurnRules.CompleteRun | packages/execution/src/executionCoordinator.ts:176-202 | a run through the whole order leaves every step SUCCESS in plan, step map and registry |
| TurnRules.ExtendRegistry | packages/execution/src/executionCoordinator.ts:209-226 | each turn changes only its own registry entry, so the skip rule can be read against the registry at the start |
| TurnRules.EntryKept | packages/execution/src/executionCoordinator.ts:209-226 | a registry entry no turn completed is as it was |
| TurnRules.EntryOf | packages/execution/src/executionCoordinator.ts:209-226 | a completed turn's entry is SUCCESS with its hash, unless the same step completes again later |
| RunLaws.EffectsFollowDependencies | packages/execution/src/executionCoordinator.ts:176-202 | when a step's turn comes every transitive dependency has already succeeded |
| RunLaws.SwapSucceedsBeforeDeposit | packages/execution/src/executionPlanBuilder.ts:276-281 | in every run of an accepted plan the first swap is SUCCESS before the first deposit's turn |
| RunLaws.LeasesReleased | packages/execution/src/executionCoordinator.ts:732-743 | after any turn of any run no lease is held, unless the release of the run's last step threw, and then exactly that step's |
| Replay.LeaseCanStay | packages/execution/src/executionCoordinator.ts:732-743 | a concrete run after which its step's lease is still taken |
| RunLaws.OneLeaseAtATime | packages/execution/src/executionCoordinator.ts:203-231 | at every moment at most one lease is held, and every outside call is made under the lease of its own step |
| RunLaws.AmountContinuity | packages/execution/src/executionCoordinator.ts:351-475 | the deposit moves the known output, an executed refresh asked for the same amount, and an executed EVM swap's minimum is met |
| RunLaws.KnownSinceTheSwap | packages/execution/src/executionCoordinator.ts:351-372 | with no swap in between, an output known later was known when the swap's turn ended |
| RunLaws.SealFollowsWrites | packages/execution/src/executionCoordinator.ts:419-494 | the seal holds at every step boundary up to the first write that is not resealed, and is lost there |
| RunLaws.RefreshedRunStaysSealed | packages/execution/src/executionCoordinator.ts:419-494 | a sealed plan with one deposit whose refresh obtained a quote before it is sealed at every step boundary |
| RunLaws.PlainRunStaysSealed | packages/execution/src/executionCoordinator.ts:460-494 | a sealed plan without swap and refresh, run without given amounts, is sealed at every step boundary |
| RunLaws.RefreshPersists | packages/execution/src/executionCoordinator.ts:392-463 | what a refresh saw and wrote is what the deposit finds |
| RunLaws.SameHashes | packages/execution/src/executionCoordinator.ts:212-226 | runs whose hash-carrying steps agree report the same hashes |
| Replay.SuccessPersists | packages/execution/src/executionCoordinator.ts:209-226 | a registered SUCCESS survives every later trade on the coordinator, of whatever plan |
| Replay.FailedNotRecorded | packages/execution/src/executionCoordinator.ts:209-231 | a step that does not complete leaves its registry entry alone; one that was tried and failed is not registered as SUCCESS |
| Replay.NothingHappensAgain | packages/execution/src/executionCoordinator.ts:209-226 | in any sequence of trades on a coordinator, once a plan has finished no later trade of its steps makes an outside call, whatever trades lie in between |
| Replay.ReceiptShows | packages/execution/src/executionCoordinator.ts:757-791 | a finished trade's receipt shows the last non-empty hash of each side, and is in flight exactly for a cross-chain plan without a destination hash |
| Replay.ReceiptsAgree | packages/execution/src/executionCoordinator.ts:757-791 | two finished trades give the same receipt exactly when each side's last non-empty hash is the same |
| Replay.ReplayReceiptExactly | packages/execution/src/executionCoordinator.ts:212-226 | a replay's receipt is the first trade's exactly when, on each side, the last hash its reads and the registry show is the last one the first trade registered |
| Replay.SkipShowsSameHash | packages/execution/src/executionCoordinator.ts:212-226 | a skip shows the registered hash exactly when what it reads agrees with it |
| Replay.SameReceiptAgain | packages/execution/src/executionCoordinator.ts:757-791 | if the trades since the first one read in agreement for the steps that carry a hash, the replay's receipt is the same |
| Replay.ReplayChangesStatus | packages/execution/src/executionCoordinator.ts:504-564 | a concrete pair of trades of one plan, in sequence, whose receipts differ: BRIDGE_IN_FLIGHT without a hash, then COMPLETED with one |
| Replay.WaitingPlansAccepted | packages/execution/src/executionPlanBuilder.ts:104-176 | both plans of that pair pass the validator and every gate, and start from the state executeTrade starts from |
| Replay.ExecuteAll | packages/execution/src/executionCoordinator.ts:121-793 | calls made one after another on a coordinator, on plans they may share, form such a sequence |
| TransactionStatuses.ExecutionStateMachine.TransitionTo | packages/execution/src/stateMachine.ts:40-97 | throws, and stays where it is, exactly on a transition the table does not have |
| TransactionStatuses.ExecutionStateMachine.TransitionAll | packages/execution/src/stateMachine.ts:87-108 | requests made one after another throw exactly where the table refuses one of them |
| TransactionStatuses.TerminalExactly | packages/execution/src/stateMachine.ts:4-39 | nothing leads on from the six terminal statuses, FAILED can be reached from every other, and nothing leads back to the start |
| TransactionStatuses.EndsExactly | packages/execution/src/stateMachine.ts:4-39 | which statuses lead to being cancelled, reverted, completed, settled or refunded: cancelled exactly before a broadcast, refunded only from the start, a pending refund or lost tracking |
| TransactionStatuses.FirstRunAccepted | packages/execution/src/executionCoordinator.ts:232-730 | for every route and request: the statuses that executing all steps of the built plan reports to a fresh state machine are accepted exactly without a SOLANA source swap and, across chains, without an approval by the adapter, a tracked wait and a destination swap |
| TransactionStatuses.WaitLeads | packages/execution/src/crosschain/crossChainTracker.ts:96-149 | after a deposit an untracked wait is accepted, and a tracked one that finds the order settled is refused |
| TransactionStatuses.DestinationSwapRefused | packages/execution/src/executionCoordinator.ts:628-665 | right after the deposit and the wait, a destination swap is refused before it sends anything |
| TransactionStatuses.SkipsAccepted | packages/execution/src/executionCoordinator.ts:212-226 | a fresh machine accepts any number of skipped steps |
| WorkerTurns.TurnIsMoves | packages/execution/src/executionCoordinator.ts:203-743 | an iteration that is answered as the shared world stands is a stretch of one worker's moves, to the record, registry, lease and log the iteration leaves |
| WorkerTurns.HowItEnds | packages/execution/src/executionCoordinator.ts:232-730 | every executed step with a result ends SUCCESS; without one it keeps its hash and ends FAILED or as it was |
| Workers.StepKeepsInv | packages/execution/src/executionCoordinator.ts:203-231 | every move by any worker keeps leases exclusive and what each busy worker knows of its record, and no persisted SUCCESS is undone |
| Workers.ExecutedOnce | packages/execution/src/executionCoordinator.ts:203-231 | over all interleavings of workers with ids of their own, as long as the repository takes each SUCCESS, a step is never issued or completed again after its first completion |
| Workers.LenientExecutesOnce | packages/execution/src/executionCoordinator.ts:732-743 | with a repository that takes any status every known step is completed at most once |
| Workers.PersistedSuccessStays | packages/execution/src/executionCoordinator.ts:732-743 | a persisted SUCCESS and its non-empty hash never change, under either write policy |
| Workers.TakesExactly | packages/execution/src/persistence/repository.ts:53-80 | a record takes SUCCESS unless transitions are checked and it is FAILED, SKIPPED or ERROR |
| Workers.FollowersExactly | packages/execution/src/persistence/repository.ts:51-64 | the table of step statuses goes forward only, any distance, except back to ACTIVE before the step is submitted, and a submitted step is no longer skipped |
| Workers.UntakenSuccessRepeats | packages/execution/src/persistence/repository.ts:235-257 | from any world where a success is not taken, a second completion by a worker that has not seen it follows |
| Workers.ReachesUntakenSuccess | packages/execution/src/persistence/repository.ts:53-80 | one failed attempt and a retry reach such a world from any start with the step unfinished |
| Workers.StrictExecutesTwice | packages/execution/src/persistence/repository.ts:53-80 | from every start with two workers that hold a step unfinished, some behaviour of the transition-checking repository executes it to SUCCESS twice |
| Workers.SharedIdExecutesTwice | packages/execution/src/persistence/repository.ts:312-327 | two concurrent runs under one worker id both get a step's lease and both execute it, under either write policy |
| CompositeRunner.Run | scripts/execute-controlled-composite-testnet.ts:243-1492 | for all answers: the exact trace of sends, always one of the five allowed, each behind its row of gates on the bare answers, and the exact status, that of the first closed gate; empty in READ_ONLY and PREFLIGHT_ONLY; success is never reported, and the runs that throw with the deposit sent are exactly those that settled; the reported hashes match the sends |
| CompositeRunner.SendRest | scripts/execute-controlled-composite-testnet.ts:1125-1492 | from the second confirmation on: approval, deposit and settlement in order, nothing after a stage that fails, and an exception exactly when everything settled |
| CompositeRunner.Settle | scripts/execute-controlled-composite-testnet.ts:1353-1442 | after the deposit: an exception exactly when the fill is reported, mined with status 1 and its delivery read |
| CompositeRunner.SettledRunThrows | scripts/execute-controlled-composite-testnet.ts:1442 | a concrete run on the allow-listed chains that sends and settles swap, approval and deposit, and so ends in an exception |
| CompositeRunner.UngatedSendsExactly | scripts/execute-controlled-composite-testnet.ts:268-293 | a run broadcasts for chains that are not allow-listed, or without enough balance, exactly when its mode has no known name and every other gate passes |
| CompositeRunner.RealHashesAreLong | scripts/execute-controlled-composite-testnet.ts:1086-1099 | every 32-byte transaction hash is one the audit log throws on |
| CompositeRunner.OtherModeSendsUnlisted | scripts/execute-controlled-composite-testnet.ts:681-762 | a concrete run in a mode of no known name that sends the swap for mainnet chains from a wallet without enough balance |
| CompositeRunner.FallbackQuoteSendsNothing | scripts/execute-controlled-composite-testnet.ts:834-851 | with a bridge quote the runner made up itself nothing is ever sent |
| CompositePlan.RunnerPlanPasses | scripts/execute-controlled-composite-testnet.ts:534-605 | whatever the bridge quote, the plan the runner builds passes the composite check |
| CompositePlan.RunnerPlanSteps | scripts/execute-controlled-composite-testnet.ts:858-1417 | the steps the runner names by position, 1, 3 and 5 of seven, are the swap, the deposit and the verification |
| CompositeRunner.CheckChains | scripts/execute-controlled-composite-testnet.ts:268-323 | LIVE_TESTNET goes on only for the allow-listed chains, the Amoy route never |
| CompositeRunner.Preflight | scripts/execute-controlled-composite-testnet.ts:268-851 | goes on exactly when every gate before the operator's confirmation passes, among them a mode the audit log takes, chains with a known pool, and a live bridge quote |
| CompositeRunner.CheckMode | scripts/execute-controlled-composite-testnet.ts:627-851 | what each mode ends with or asks for, the swap's simulation, and the live quote |
| CompositeRunner.CheckSource | scripts/execute-controlled-composite-testnet.ts:268-904 | everything before the swap, with the answer of the first gate that is closed |
| CompositeRunner.SendDeposit | scripts/execute-controlled-composite-testnet.ts:1279-1492 | the deposit and its settlement: what is sent, and the answer of the first gate that is closed |
| CompositeRunner.SwapStage | scripts/execute-controlled-composite-testnet.ts:917-1023 | goes on exactly when the swap is mined with status 1 and its output extracted |
| CompositeRunner.BridgeGate | scripts/execute-controlled-composite-testnet.ts:1024-1136 | goes on exactly with an executable fresh quote and the bridge token; otherwise which refusal the caller sees |
| CompositeRunner.ApprovalStage | scripts/execute-controlled-composite-testnet.ts:1137-1193 | approves exactly the output, only if the allowance is short, and goes on exactly when the allowance covers it |
| CompositeRunner.BridgePreflight | scripts/execute-controlled-composite-testnet.ts:1194-1278 | goes on exactly when the decoded deposit matches owner, tokens, output and chain, and the simulation passes |
| CompositeRunner.PollForFill | scripts/execute-controlled-composite-testnet.ts:1353-1369 | stops at the first fill the provider reports, or reports none |
| PolygonRunner.Run | scripts/execute-controlled-polygon-crosschain.ts:242-1248 | for all answers: the exact trace of sends, always one of the five allowed, each behind its row of gates on the bare answers (networks, signer, funds, tokens, simulation, receipt), and the exact status, that of the first closed gate; empty outside LIVE_ONCHAIN; an uncertain swap or deposit is the last send; the reported hashes are those of the sends |
| PolygonRunner.RunFingerprinted | scripts/execute-controlled-polygon-crosschain.ts:38-58 | the same with the runner's own plan hash, where a retargeted plan sends nothing |
| PolygonRunner.CheckNetworks | scripts/execute-controlled-polygon-crosschain.ts:263-334 | goes on exactly on Polygon and Arbitrum One with reachable, populated contracts |
| PolygonRunner.CheckAddresses | scripts/execute-controlled-polygon-crosschain.ts:351-556 | goes on exactly when the signer is not the compromised one and signer and recipient are who they must be |
| PolygonRunner.LiveGates | scripts/execute-controlled-polygon-crosschain.ts:663-815 | goes on exactly in LIVE_ONCHAIN with a funded wallet, the source token, no stop, an unchanged plan and a simulated swap; a mutation is reported only if there was one |
| PolygonRunner.SwapStage | scripts/execute-controlled-polygon-crosschain.ts:818-914 | goes on exactly when the swap settled with at least the bridge's smallest deposit; uncertain exactly for an ambiguous send |
| PolygonRunner.ApprovalStage | scripts/execute-controlled-polygon-crosschain.ts:957-976 | approves exactly the output, only if the allowance is short, and never stops the run |
| PolygonRunner.BridgeStage | scripts/execute-controlled-polygon-crosschain.ts:977-1061 | what is sent to the bridge, for a quote with an amount, without calldata, null, or none; and that only a confirmed, simulated, mined send goes on |
| PolygonRunner.SendRest | scripts/execute-controlled-polygon-crosschain.ts:916-1236 | from the settled swap on: the exact sends, and that the result names no hash that was not sent |
| PolygonRunner.PollForFill | scripts/execute-controlled-polygon-crosschain.ts:1099-1136 | ends at the first fill, refund or expiry, or reports none |
| PolygonRunner.Settle | scripts/execute-controlled-polygon-crosschain.ts:1063-1236 | settled exactly when the fill came first and its receipt has status 1, and which hashes the answer names |
| JsonReading.ArrayReads | packages/execution/src/executionPlanBuilder.ts:29-31 | a bracketed, comma-joined list of item texts is read back as its items, a lone empty text as the empty array |
| JsonReading.ObjectReads | packages/execution/src/executionPlanBuilder.ts:32-33 | a braced, comma-joined list of quoted keys and value texts is read back as its fields, in order |
| JsonText.TextReads | scripts/execute-controlled-polygon-crosschain.ts:39-56 | parsing the insertion-order JSON text of any tree gives back the tree without its undefined fields |
| PlanFingerprint.FingerprintExact | scripts/execute-controlled-polygon-crosschain.ts:38-58 | with a collision-free hash two plans have the same fingerprint if and only if they agree in every fingerprinted field, addresses up to case |
| PolygonRunner.MutationIsCaught | scripts/execute-controlled-polygon-crosschain.ts:751-768 | the comparison before the broadcast fails exactly for the retargeted plan, and then nothing is sent |
| PolygonRunner.Gates | scripts/execute-controlled-polygon-crosschain.ts:263-815 | goes on exactly when every gate before the first send passes |
| PolygonRunner.MinimumReachesAcross | scripts/execute-controlled-polygon-crosschain.ts:557-560 | the exact input from which the floored minimum reaches the bridge's smallest deposit |
| PolygonRunner.WarningNeedsOneTest | scripts/execute-controlled-polygon-crosschain.ts:557-563 | a minimum below the smallest deposit already implies less than 4.9 POL |
| PolygonRunner.QuoteDecidesDeposit | scripts/execute-controlled-polygon-crosschain.ts:916-1030 | a run that deposits would send any other call the fresh quote named instead, or none at all, with the same sends before it |
| PolygonRunner.OwnProviderDepositsOutput | scripts/execute-controlled-polygon-crosschain.ts:918-956 | with the repository's provider the quote request always throws, and every deposit moves exactly the swap's output |
| PolygonRunner.ApprovalUnguarded | scripts/execute-controlled-polygon-crosschain.ts:964-989 | what is sent does not depend on the approval's outcome, and an approval is sent even if the deposit is then not confirmed |
| ChainRegistry.ChainRegistry.RegisterChain | packages/chains/src/registry.ts:78-83 | keeps both maps equal to what the registration history says |
| ChainRegistry.ChainRegistry.GetChain | packages/chains/src/registry.ts:84-88 | a numeric lookup finds the current configuration of the key that last claimed the id |
| ChainRegistry.ChainRegistry.GetChainByText | packages/chains/src/registry.ts:89-109 | a text finds the key it is, else the chain id it reads as, else the key it is resolved to |
| ChainRegistry.OnlyCurrentFound | packages/chains/src/registry.ts:84-109 | no lookup answers with a configuration that has been replaced, and every registered key finds its own |
| ChainRegistry.IndexAgreesExactly | packages/chains/src/registry.ts:72-88 | the index agrees with a linear scan of the history exactly when the claiming key is non-empty and its current configuration is the one it claimed the id with |
| ChainRegistry.DistinctKeysAgree | packages/chains/src/registry.ts:72-88 | with pairwise different non-empty lower-cased keys the index is the scan, for every history |
| ChainRegistry.StaleIndexEntry | packages/chains/src/registry.ts:78-83 | a key registered again under another id is still found under the old one |

## Left out

- CanonicalJson.Print: numbers are integers and strings are sequences of Unicode scalar values; floating-point numbers and lone surrogates are not modelled.
- PlanSeal.Hash: SHA-256 and UTF-8 are one abstract function; TamperEvidence assumes that it has no collisions.
- PlanValidator.ValidatePlan: tests that a declared type already answers (that a field is an object, an array, a boolean or of a known name, and the retry policy's shape) are not modelled; every failed field or step test is one error, InvalidField.
- PlanValidator.ValidateStep: the address validators and the chain and capability registries are functions of the model's input, Lookups.
- PlanBuilder.BuildPlan: titles, retry policies, diagnostics and timestamps are not modelled, the plan id is given, and of the route's spellings of its id only the first is read.
- PlanBuilderLaws.BuilderMeetsValidator: the header's checks on the quote's output and minimum are a condition, since a quote without them is built with output 0 and refused.
- Coordinator.ExecutionCoordinator.ExecuteTrade: saving the plan and the receipt's amounts, gas and URLs are not modelled. The state machine may refuse any status a step starts or ends with, except the one right after a mined EVM or destination send, which the adapter's own CONFIRMING precedes; which it does refuse is the subject of TransactionStatuses. The risk engine's verdicts and whether there is a signer are given.
- TransactionStatuses.FirstRunAccepted: about runs in which every step is executed and nothing else fails, with the statuses the repository's adapters and tracker report; the machine's step list, listeners and receipt are not modelled.
- QuotedTrade.ObtainPlan: of the request's spellings of its recipient only recipientAddress is read.
- Coordinator.StepMap: the step map is reduced to the statuses it is read for.
- StepActions.DoSourceSwap: that adapters report non-empty hashes for mined transactions, and that the output extractor throws on an amount below the stated minimum, are assumptions about code that is not part of this model.
- RunLaws.AmountContinuity: speaks of steps executed in the run; a swap that was skipped leaves no output behind.
- RunLaws.EffectsFollowDependencies: speaks of steps reaching SUCCESS; a mined swap whose output cannot be extracted is marked FAILED and may be run again.
- Replay.ReplayReceiptExactly: about trades that finish; after a refresh the same in-memory plan may fail the composite check and be refused.
- Workers.ExecutedOnce: leases do not expire, workers do not crash inside a step, and reads succeed; dependencies between steps are not needed and not modelled, so more behaviours are covered than can occur.
- CompositeRunner.Run: that the deposit's calldata decodes to what was encoded is left to the ABI library, so a mismatch is covered although none may occur; the gates, evidence and audit records, summaries and quotes before the swap are not modelled beyond their exits; the clock bounds the polls only by their number.
- PlanFingerprint.FingerprintExact: the plan's fields are those the fingerprint reads; its amounts are integers printed in decimal.
- PolygonRunner.Run: evidence, diagnostics and the settlement's metrics are not modelled beyond their exits; the check of the recipient against the expected recipient can never fail and is omitted.
- PolygonRunner.CheckAddresses: private-key parsing is one answer, the address of the key.
- ChainRegistry.ChainRegistry.GetChainByText: number parsing and the other registry's answer are parameters; the tier and status updates of stored configurations, RPC choice and gas estimates are not modelled.
- Case mapping (toLowerCase, toUpperCase) and BigInt parsing are abstract host functions throughout.
