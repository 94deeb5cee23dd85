/** What the seal protects, field by field. */
module SealLaws {
  import opened Js
  import opened PlanModel
  import PlanSeal

  /** Both texts are the same up to case, an absent one being the empty text. */
  predicate SameUpToCase(host: Host, a: Option<string>, b: Option<string>) {
    host.lower(GivenOr(a, "")) == host.lower(GivenOr(b, ""))
  }

  predicate SameText(a: Option<string>, b: Option<string>, default: string) { GivenOr(a, default) == GivenOr(b, default) }

  /** Everything of a step but status, hash, error, environment and the swap's stated output. */
  predicate StepAlike(host: Host, s: Step, t: Step) {
    && s.id == t.id && s.kind == t.kind && s.chainId == t.chainId && s.numericChainId == t.numericChainId && s.dependencies == t.dependencies
    && SameUpToCase(host, s.targetAddress, t.targetAddress)
    && SameUpToCase(host, s.calldata, t.calldata)
    && SameText(s.valueWei, t.valueWei, "0")
    && SameUpToCase(host, s.approvalTarget, t.approvalTarget)
    && SameUpToCase(host, s.requiredTokenAddress, t.requiredTokenAddress)
    && SameText(s.requiredAmountRaw, t.requiredAmountRaw, "")
    && SameUpToCase(host, s.outputTokenAddress, t.outputTokenAddress)
  }

  predicate RouteAlike(host: Host, g: Header, h: Header) {
    && g.planId == h.planId && g.routeId == h.routeId && g.routeType == h.routeType
    && g.sourceChainId == h.sourceChainId && g.destinationChainId == h.destinationChainId
    && host.lower(g.tokenIn.address) == host.lower(h.tokenIn.address)
    && host.lower(g.tokenOut.address) == host.lower(h.tokenOut.address)
    && g.expectedAmountInRaw == h.expectedAmountInRaw
    && g.expectedAmountOutRaw == h.expectedAmountOutRaw
    && g.minimumAmountOutRaw == h.minimumAmountOutRaw
    && SameText(g.totalFeeRaw, h.totalFeeRaw, "0")
  }

  predicate CallAlike(host: Host, g: Header, h: Header) {
    && SameUpToCase(host, g.executionTarget, h.executionTarget)
    && SameUpToCase(host, g.calldata, h.calldata)
    && SameUpToCase(host, g.approvalTarget, h.approvalTarget)
    && SameText(g.capabilityEvidence, h.capabilityEvidence, "")
  }

  /** Who is paid: the first of recipient, wallet and sender. */
  function PaidTo(x: Extras): string { GivenOr(x.recipient, GivenOr(x.userWalletAddress, GivenOr(x.sender, ""))) }

  /** When the plan expires: the first of expiration and deadline that is given and not zero. */
  function ExpiresAt(h: Header): int {
    match (h.expiration, h.extras.deadline)
    case (Some(e), d) => if e != 0 then e else if d == None then 0 else d.value
    case (None, Some(d)) => d
    case (None, None) => 0
  }

  predicate TermsAlike(host: Host, g: Header, h: Header) {
    var x, y := g.extras, h.extras;
    && host.lower(PaidTo(x)) == host.lower(PaidTo(y))
    && ExpiresAt(g) == ExpiresAt(h)
    && GivenOr(g.selectedDex, GivenOr(x.dex, "")) == GivenOr(h.selectedDex, GivenOr(y.dex, ""))
    && GivenOr(g.selectedProvider, GivenOr(x.bridge, "")) == GivenOr(h.selectedProvider, GivenOr(y.bridge, ""))
    && GivenOr(x.transactionValue, GivenOr(x.value, "0")) == GivenOr(y.transactionValue, GivenOr(y.value, "0"))
    && SameText(x.solver, y.solver, "") && SameText(x.intentId, y.intentId, "")
    && SameText(x.noncePolicy, y.noncePolicy, "") && SameText(x.authorizationScope, y.authorizationScope, "")
  }

  /** The plans agree in every sealed field: addresses and calldata up to case, absent fields as their defaults. */
  ghost predicate PlanAlike(host: Host, p: Plan, q: Plan) {
    && RouteAlike(host, p.header, q.header) && CallAlike(host, p.header, q.header) && TermsAlike(host, p.header, q.header)
    && |p.steps| == |q.steps| && forall i :: 0 <= i < |p.steps| ==> StepAlike(host, p.steps[i], q.steps[i])
  }

  lemma KindsNamed(a: StepKind, b: StepKind)
    ensures PlanSeal.KindName(a) == PlanSeal.KindName(b) <==> a == b
  {
    var x, y := PlanSeal.KindName(a), PlanSeal.KindName(b);
    assert a != b && |x| == |y| ==> x[0] != y[0];
  }

  lemma RoutesNamed(a: RouteType, b: RouteType)
    ensures PlanSeal.RouteName(a) == PlanSeal.RouteName(b) <==> a == b
  {
    assert PlanSeal.RouteName(CrossChainDirect)[12] != PlanSeal.RouteName(CrossChainComposite)[12];
  }

  /** The code's defaulting is GivenOr. */
  lemma Defaults(a: Option<string>, b: Option<string>)
    ensures OrEmpty(a) == GivenOr(a, "") && OrEmpty(Or(a, b)) == GivenOr(a, GivenOr(b, ""))
  {
  }

  /** The payload of a step, read off its fields. */
  lemma StepParts(host: Host, s: Step)
    ensures PlanSeal.NormalizeStep(host, s) == PlanSeal.StepPayload(
      host.lower(GivenOr(s.approvalTarget, "")), host.lower(GivenOr(s.calldata, "")), s.chainId, s.dependencies, s.id, s.numericChainId,
      host.lower(GivenOr(s.outputTokenAddress, "")), GivenOr(s.requiredAmountRaw, ""), host.lower(GivenOr(s.requiredTokenAddress, "")),
      host.lower(GivenOr(s.targetAddress, "")), PlanSeal.KindName(s.kind), GivenOr(s.valueWei, "0"))
  {
  }

  lemma StepPayloads(host: Host, s: Step, t: Step)
    ensures PlanSeal.NormalizeStep(host, s) == PlanSeal.NormalizeStep(host, t) <==> StepAlike(host, s, t)
  {
    StepParts(host, s);
    StepParts(host, t);
    KindsNamed(s.kind, t.kind);
  }

  lemma StepsPayloads(host: Host, p: Plan, q: Plan)
    ensures PlanSeal.Normalize(host, p).steps == PlanSeal.Normalize(host, q).steps <==>
            |p.steps| == |q.steps| && forall i :: 0 <= i < |p.steps| ==> StepAlike(host, p.steps[i], q.steps[i])
  {
    var x, y := PlanSeal.Normalize(host, p).steps, PlanSeal.Normalize(host, q).steps;
    if |p.steps| == |q.steps| {
      forall i | 0 <= i < |p.steps| ensures x[i] == y[i] <==> StepAlike(host, p.steps[i], q.steps[i]) {
        StepPayloads(host, p.steps[i], q.steps[i]);
      }
    } else {
      assert |x| != |y|;
    }
  }

  /** The payload of a plan, read off its header. */
  lemma HeaderParts(host: Host, p: Plan)
    ensures var h, x := p.header, p.header.extras;
            PlanSeal.Normalize(host, p) == PlanSeal.Payload(
              host.lower(GivenOr(h.approvalTarget, "")), GivenOr(x.authorizationScope, ""), host.lower(GivenOr(h.calldata, "")),
              GivenOr(h.capabilityEvidence, ""), h.destinationChainId, host.lower(h.tokenOut.address), host.lower(GivenOr(h.executionTarget, "")),
              h.expectedAmountInRaw, h.expectedAmountOutRaw, ExpiresAt(h), GivenOr(x.intentId, ""), h.minimumAmountOutRaw,
              GivenOr(x.noncePolicy, ""), h.planId, host.lower(PaidTo(x)), h.routeId, PlanSeal.RouteName(h.routeType),
              GivenOr(h.selectedDex, GivenOr(x.dex, "")), GivenOr(h.selectedProvider, GivenOr(x.bridge, "")), GivenOr(x.solver, ""),
              h.sourceChainId, host.lower(h.tokenIn.address), GivenOr(h.totalFeeRaw, "0"),
              GivenOr(x.transactionValue, GivenOr(x.value, "0")), PlanSeal.Normalize(host, p).steps)
  {
    var x := p.header.extras;
    Defaults(x.recipient, Or(x.userWalletAddress, x.sender));
    Defaults(x.userWalletAddress, x.sender);
  }

  lemma HeaderPayloads(host: Host, p: Plan, q: Plan)
    ensures PlanSeal.Normalize(host, p) == PlanSeal.Normalize(host, q).(steps := PlanSeal.Normalize(host, p).steps) <==>
            RouteAlike(host, p.header, q.header) && CallAlike(host, p.header, q.header) && TermsAlike(host, p.header, q.header)
  {
    HeaderParts(host, p);
    HeaderParts(host, q);
    RoutesNamed(p.header.routeType, q.header.routeType);
  }

  /** Two plans have the same payload exactly when they agree in every sealed field. */
  lemma PayloadsAlike(host: Host, p: Plan, q: Plan)
    ensures PlanSeal.Normalize(host, p) == PlanSeal.Normalize(host, q) <==> PlanAlike(host, p, q)
  {
    StepsPayloads(host, p, q);
    HeaderPayloads(host, p, q);
  }

  /** The check compares with the hash it is handed, else the plan's integrityHash, else its planHash; a plan
      without any passes. */
  lemma ComparesWith(host: Host, p: Plan, expected: Option<string>)
    ensures var hash := GivenOr(expected, GivenOr(p.header.integrityHash, GivenOr(p.header.planHash, "")));
            PlanSeal.VerifyIntegrity(host, p, expected) <==> hash == "" || hash == PlanSeal.Hash(host, p)
  {
  }

  /** Tamper evidence, field by field: with a collision-free hash, a plan that carries P's seal passes the
      integrity check exactly when it agrees with P in every sealed field. */
  lemma SealProtects(host: Host, p: Plan, q: Plan)
    requires host.CollisionFree()
    requires q.header.integrityHash == PlanSeal.Sealed(host, p).header.integrityHash
    ensures PlanSeal.VerifyIntegrity(host, q, None) <==> PlanAlike(host, p, q)
  {
    PlanSeal.TamperEvidence(host, p, q, None);
    PayloadsAlike(host, p, q);
  }

  /** For one: a sealed plan whose recipient is replaced by another address is refused. */
  lemma RecipientIsSealed(host: Host, p: Plan, other: string)
    requires host.CollisionFree() && p.header.extras.recipient.Some? && p.header.extras.recipient.value != "" && other != ""
    ensures var s := PlanSeal.Sealed(host, p);
            PlanSeal.VerifyIntegrity(host, s.(header := s.header.(extras := s.header.extras.(recipient := Some(other)))), None)
            <==> host.lower(other) == host.lower(p.header.extras.recipient.value)
  {
    var s := PlanSeal.Sealed(host, p);
    var q := s.(header := s.header.(extras := s.header.extras.(recipient := Some(other))));
    SealProtects(host, p, q);
    forall i | 0 <= i < |p.steps| ensures StepAlike(host, p.steps[i], q.steps[i]) {}
  }

  /** What it does not protect: whether a plan claims to be executable and why not, its mode, the symbols
      of its tokens, and, of a step, its environment and the output and minimum a swap states. */
  predicate UnsealedChange(p: Plan, q: Plan) {
    && q.header == p.header.(isExecutable := q.header.isExecutable, unexecutableReason := q.header.unexecutableReason,
         compositeExecutionMode := q.header.compositeExecutionMode,
         tokenIn := Token(p.header.tokenIn.address, q.header.tokenIn.symbol, q.header.tokenIn.isNative),
         tokenOut := Token(p.header.tokenOut.address, q.header.tokenOut.symbol, q.header.tokenOut.isNative))
    && |q.steps| == |p.steps|
    && forall i :: 0 <= i < |p.steps| ==>
         q.steps[i] == p.steps[i].(environment := q.steps[i].environment, expectedAmountOutRaw := q.steps[i].expectedAmountOutRaw,
                                   minimumAmountOutRaw := q.steps[i].minimumAmountOutRaw)
  }

  /** Such a change to a sealed plan is never noticed. */
  lemma UnsealedChangesPass(host: Host, p: Plan, q: Plan)
    requires UnsealedChange(PlanSeal.Sealed(host, p), q)
    ensures PlanSeal.VerifyIntegrity(host, q, None)
  {
    var s := PlanSeal.Sealed(host, p);
    forall i | 0 <= i < |p.steps| ensures StepAlike(host, s.steps[i], q.steps[i]) {}
    PayloadsAlike(host, s, q);
    PlanSeal.SealVerifiesAndIsIdempotent(host, p);
  }
}
