/** The plan seal: a hash of the canonical text of a normalised payload. */
module PlanSeal {
  import opened Js
  import opened CanonicalJson
  import opened PlanModel
  import CanonicalJsonLaws

  /** The hashed fields of a step, after defaulting and lower-casing. */
  datatype StepPayload = StepPayload(
    approvalTarget: string, calldata: string, chainId: string, dependencies: seq<string>, id: string,
    numericChainId: Option<int>, outputTokenAddress: string, requiredAmountRaw: string,
    requiredTokenAddress: string, targetAddress: string, kind: string, valueWei: string)

  /** The hashed fields of a plan, after defaulting and lower-casing. */
  datatype Payload = Payload(
    approvalTarget: string, authorizationScope: string, calldata: string, capabilityEvidence: string,
    destinationChainId: string, destinationToken: string, executionTarget: string,
    expectedAmountInRaw: string, expectedAmountOutRaw: string, expiration: int, intentId: string,
    minimumAmountOutRaw: string, noncePolicy: string, planId: string, recipient: string, routeId: string,
    routeType: string, selectedDex: string, selectedProvider: string, solver: string,
    sourceChainId: string, sourceToken: string, totalFeeRaw: string, transactionValue: string,
    steps: seq<StepPayload>)

  function KindName(k: StepKind): string {
    match k
    case Validation => "VALIDATION"
    case Approval => "APPROVAL"
    case SourceApproval => "SOURCE_APPROVAL"
    case SourceSwap => "SOURCE_SWAP"
    case BridgeQuoteRefresh => "BRIDGE_QUOTE_REFRESH"
    case BridgeDeposit => "BRIDGE_DEPOSIT"
    case BridgeRelayWait => "BRIDGE_RELAY_WAIT"
    case DestinationApproval => "DESTINATION_APPROVAL"
    case DestinationSwap => "DESTINATION_SWAP"
    case DestinationVerify => "DESTINATION_VERIFY"
    case SettlementComplete => "SETTLEMENT_COMPLETE"
  }

  function RouteName(r: RouteType): string {
    match r
    case Direct => "DIRECT"
    case MultiHop => "MULTI_HOP"
    case CrossChainDirect => "CROSS_CHAIN_DIRECT"
    case CrossChainComposite => "CROSS_CHAIN_COMPOSITE"
  }

  /** `a || b || 0` on optional numbers. */
  function OrZero(a: Option<int>, b: Option<int>): int {
    if a.Some? && a.value != 0 then a.value else if b.Some? then b.value else 0
  }

  function NormalizeStep(host: Host, s: Step): StepPayload {
    StepPayload(
      host.lower(OrEmpty(s.approvalTarget)),
      host.lower(OrEmpty(s.calldata)),
      s.chainId,
      s.dependencies,
      s.id,
      s.numericChainId,
      host.lower(OrEmpty(s.outputTokenAddress)),
      OrEmpty(s.requiredAmountRaw),
      host.lower(OrEmpty(s.requiredTokenAddress)),
      host.lower(OrEmpty(s.targetAddress)),
      KindName(s.kind),
      if Truthy(s.valueWei) then s.valueWei.value else "0")
  }

  function Normalize(host: Host, p: Plan): Payload {
    var h, x := p.header, p.header.extras;
    var value := Or(x.transactionValue, x.value);
    Payload(
      host.lower(OrEmpty(h.approvalTarget)),
      OrEmpty(x.authorizationScope),
      host.lower(OrEmpty(h.calldata)),
      OrEmpty(h.capabilityEvidence),
      h.destinationChainId,
      host.lower(h.tokenOut.address),
      host.lower(OrEmpty(h.executionTarget)),
      h.expectedAmountInRaw,
      h.expectedAmountOutRaw,
      OrZero(h.expiration, x.deadline),
      OrEmpty(x.intentId),
      h.minimumAmountOutRaw,
      OrEmpty(x.noncePolicy),
      h.planId,
      host.lower(OrEmpty(Or(x.recipient, Or(x.userWalletAddress, x.sender)))),
      h.routeId,
      RouteName(h.routeType),
      OrEmpty(Or(h.selectedDex, x.dex)),
      OrEmpty(Or(h.selectedProvider, x.bridge)),
      OrEmpty(x.solver),
      h.sourceChainId,
      host.lower(h.tokenIn.address),
      if Truthy(h.totalFeeRaw) then h.totalFeeRaw.value else "0",
      if Truthy(value) then value.value else "0",
      seq(|p.steps|, i requires 0 <= i < |p.steps| => NormalizeStep(host, p.steps[i])))
  }

  function Strings(ss: seq<string>): seq<Json> {
    seq(|ss|, i requires 0 <= i < |ss| => Str(ss[i]))
  }

  function StepFields(s: StepPayload): seq<Field<Json>> {
    [ Field("approvalTarget", Str(s.approvalTarget)),
      Field("calldata", Str(s.calldata)),
      Field("chainId", Str(s.chainId)),
      Field("dependencies", Arr(Strings(s.dependencies))),
      Field("id", Str(s.id)),
      Field("numericChainId", if s.numericChainId.Some? then Num(s.numericChainId.value) else Undefined),
      Field("outputTokenAddress", Str(s.outputTokenAddress)),
      Field("requiredAmountRaw", Str(s.requiredAmountRaw)),
      Field("requiredTokenAddress", Str(s.requiredTokenAddress)),
      Field("targetAddress", Str(s.targetAddress)),
      Field("type", Str(s.kind)),
      Field("valueWei", Str(s.valueWei)) ]
  }

  function PlanFields(p: Payload): seq<Field<Json>> {
    [ Field("approvalTarget", Str(p.approvalTarget)),
      Field("authorizationScope", Str(p.authorizationScope)),
      Field("calldata", Str(p.calldata)),
      Field("capabilityEvidence", Str(p.capabilityEvidence)),
      Field("destinationChainId", Str(p.destinationChainId)),
      Field("destinationToken", Str(p.destinationToken)),
      Field("executionTarget", Str(p.executionTarget)),
      Field("expectedAmountInRaw", Str(p.expectedAmountInRaw)),
      Field("expectedAmountOutRaw", Str(p.expectedAmountOutRaw)),
      Field("expiration", Num(p.expiration)),
      Field("intentId", Str(p.intentId)),
      Field("minimumAmountOutRaw", Str(p.minimumAmountOutRaw)),
      Field("noncePolicy", Str(p.noncePolicy)),
      Field("planId", Str(p.planId)),
      Field("recipient", Str(p.recipient)),
      Field("routeId", Str(p.routeId)),
      Field("routeType", Str(p.routeType)),
      Field("selectedDex", Str(p.selectedDex)),
      Field("selectedProvider", Str(p.selectedProvider)),
      Field("solver", Str(p.solver)),
      Field("sourceChainId", Str(p.sourceChainId)),
      Field("sourceToken", Str(p.sourceToken)),
      Field("totalFeeRaw", Str(p.totalFeeRaw)),
      Field("transactionValue", Str(p.transactionValue)) ]
  }

  function StepJson(s: StepPayload): Json { Obj(StepFields(s)) }

  function StepsJson(ss: seq<StepPayload>): seq<Json> {
    seq(|ss|, i requires 0 <= i < |ss| => StepJson(ss[i]))
  }

  function PayloadFields(p: Payload): seq<Field<Json>> {
    PlanFields(p) + [Field("steps", Arr(StepsJson(p.steps)))]
  }

  function PayloadJson(p: Payload): Json {
    Obj(PayloadFields(p))
  }

  /** computeExecutionPlanHash */
  function Hash(host: Host, p: Plan): string {
    host.digest(Print(PayloadJson(Normalize(host, p))))
  }

  /** The hash a check compares with: an explicit one, else the plan's own. */
  function TargetHash(p: Plan, expected: Option<string>): Option<string> {
    Or(expected, Or(p.header.integrityHash, p.header.planHash))
  }

  /** verifyPlanIntegrity; assertPlanIntegrity throws exactly when it is false. */
  predicate VerifyIntegrity(host: Host, p: Plan, expected: Option<string>) {
    var target := TargetHash(p, expected);
    Truthy(target) ==> Hash(host, p) == target.value
  }

  function Sealed(host: Host, p: Plan): Plan {
    var h := Hash(host, p);
    p.(header := p.header.(integrityHash := Some(h), planHash := Some(h)))
  }

  /** sealPlan: writes both hash fields of the plan object. */
  method SealPlan(host: Host, plan: ExecutionPlan)
    modifies plan
    ensures plan.View() == Sealed(host, old(plan.View()))
  {
    var hash := Hash(host, plan.View());
    plan.header := plan.header.(integrityHash := Some(hash), planHash := Some(hash));
    assert plan.Steps() == old(plan.Steps());
  }

  // ----- The payload text determines the payload -----

  function Keys<V>(s: seq<Field<V>>): seq<string> {
    seq(|s|, i requires 0 <= i < |s| => s[i].key)
  }

  /** Sorting is driven by the keys alone: equal key lists and equal results mean equal lists. */
  lemma {:induction false} InsertInjective<V>(x: Field<V>, s: seq<Field<V>>, y: Field<V>, t: seq<Field<V>>)
    requires x.key == y.key && |s| == |t| && forall i :: 0 <= i < |s| ==> s[i].key == t[i].key
    requires Insert(x, s) == Insert(y, t)
    ensures x == y && s == t
  {
    if s == [] {
      assert Insert(x, s)[0] == x && Insert(y, t)[0] == y;
    } else if KeyLe(x.key, s[0].key) {
      assert Insert(x, s)[0] == x && Insert(y, t)[0] == y;
      assert s == Insert(x, s)[1..] && t == Insert(y, t)[1..];
    } else {
      assert Insert(x, s)[0] == s[0] && Insert(y, t)[0] == t[0];
      assert Insert(x, s)[1..] == Insert(x, s[1..]) && Insert(y, t)[1..] == Insert(y, t[1..]);
      InsertInjective(x, s[1..], y, t[1..]);
      assert s == [s[0]] + s[1..] && t == [t[0]] + t[1..];
    }
  }

  lemma {:induction false} InsertKeys<V>(x: Field<V>, s: seq<Field<V>>, y: Field<V>, t: seq<Field<V>>)
    requires x.key == y.key && |s| == |t| && forall i :: 0 <= i < |s| ==> s[i].key == t[i].key
    ensures |Insert(x, s)| == |Insert(y, t)|
    ensures forall i :: 0 <= i < |Insert(x, s)| ==> Insert(x, s)[i].key == Insert(y, t)[i].key
  {
    if s != [] && !KeyLe(x.key, s[0].key) {
      InsertKeys(x, s[1..], y, t[1..]);
    }
  }

  lemma {:induction false} SortInjective<V>(s: seq<Field<V>>, t: seq<Field<V>>)
    requires |s| == |t| && forall i :: 0 <= i < |s| ==> s[i].key == t[i].key
    ensures forall i :: 0 <= i < |s| ==> SortByKey(s)[i].key == SortByKey(t)[i].key
    ensures SortByKey(s) == SortByKey(t) ==> s == t
  {
    if s != [] {
      SortInjective(s[1..], t[1..]);
      InsertKeys(s[0], SortByKey(s[1..]), t[0], SortByKey(t[1..]));
      if SortByKey(s) == SortByKey(t) {
        InsertInjective(s[0], SortByKey(s[1..]), t[0], SortByKey(t[1..]));
        assert s == [s[0]] + s[1..] && t == [t[0]] + t[1..];
      }
    }
  }

  lemma CanonFieldsInjective(x: seq<Field<Json>>, y: seq<Field<Json>>)
    requires |x| == |y| && forall i :: 0 <= i < |x| ==> x[i].key == y[i].key
    requires Canon(Obj(x)) == Canon(Obj(y))
    ensures forall i :: 0 <= i < |x| ==> Canon(x[i].value) == Canon(y[i].value)
  {
    SortInjective(CanonValues(x), CanonValues(y));
    forall i | 0 <= i < |x| ensures Canon(x[i].value) == Canon(y[i].value) {
      assert CanonValues(x)[i] == CanonValues(y)[i];
    }
  }

  lemma CanonArrays(x: seq<Json>, y: seq<Json>)
    requires forall i :: 0 <= i < |x| ==> !x[i].Undefined?
    requires forall i :: 0 <= i < |y| ==> !y[i].Undefined?
    requires Canon(Arr(x)) == Canon(Arr(y))
    ensures |x| == |y| && forall i :: 0 <= i < |x| ==> Canon(x[i]) == Canon(y[i])
  {
    assert |x| == |CanonItems(x)| == |CanonItems(y)| == |y|;
    forall i | 0 <= i < |x| ensures Canon(x[i]) == Canon(y[i]) {
      assert CanonItems(x)[i] == CanonItems(y)[i];
    }
  }

  lemma CanonStrings(a: seq<string>, b: seq<string>)
    requires Canon(Arr(Strings(a))) == Canon(Arr(Strings(b)))
    ensures a == b
  {
    CanonArrays(Strings(a), Strings(b));
    forall i | 0 <= i < |a| ensures a[i] == b[i] { assert Canon(Strings(a)[i]) == Canon(Strings(b)[i]); }
  }

  /** A value that is its own canonical form. */
  predicate Atom(v: Json) { v.Str? || v.Num? || v.Undefined? }

  lemma StepFieldsAreAtoms(s: StepPayload, t: StepPayload)
    ensures |StepFields(s)| == |StepFields(t)| == 12
    ensures forall i :: 0 <= i < 12 ==> StepFields(s)[i].key == StepFields(t)[i].key
    ensures forall i :: 0 <= i < 12 && i != 3 ==> Canon(StepFields(s)[i].value) == StepFields(s)[i].value
    ensures StepFields(s)[3].value == Arr(Strings(s.dependencies))
  {
    forall i | 0 <= i < 12 && i != 3 ensures Canon(StepFields(s)[i].value) == StepFields(s)[i].value {
      assert Atom(StepFields(s)[i].value);
    }
  }

  lemma StepFieldsInjective(s: StepPayload, t: StepPayload)
    requires s.dependencies == t.dependencies
    requires forall i :: 0 <= i < 12 && i != 3 ==> StepFields(s)[i].value == StepFields(t)[i].value
    ensures s == t
  {
    var x, y := StepFields(s), StepFields(t);
    assert x[0].value == y[0].value && x[1].value == y[1].value && x[2].value == y[2].value && x[4].value == y[4].value;
    assert x[5].value == y[5].value && x[6].value == y[6].value && x[7].value == y[7].value && x[8].value == y[8].value;
    assert x[9].value == y[9].value && x[10].value == y[10].value && x[11].value == y[11].value;
  }

  lemma StepJsonInjective(s: StepPayload, t: StepPayload)
    requires Canon(StepJson(s)) == Canon(StepJson(t))
    ensures s == t
  {
    var x, y := StepFields(s), StepFields(t);
    StepFieldsAreAtoms(s, t);
    StepFieldsAreAtoms(t, s);
    CanonFieldsInjective(x, y);
    assert Canon(x[3].value) == Canon(y[3].value);
    CanonStrings(s.dependencies, t.dependencies);
    StepFieldsInjective(s, t);
  }

  lemma StepsJsonInjective(a: seq<StepPayload>, b: seq<StepPayload>)
    requires Canon(Arr(StepsJson(a))) == Canon(Arr(StepsJson(b)))
    ensures a == b
  {
    var x, y := StepsJson(a), StepsJson(b);
    CanonArrays(x, y);
    forall i | 0 <= i < |a| ensures a[i] == b[i] {
      assert Canon(x[i]) == Canon(y[i]);
      StepJsonInjective(a[i], b[i]);
    }
  }

  lemma PlanFieldsInjective(p: Payload, q: Payload)
    requires PlanFields(p) == PlanFields(q) && p.steps == q.steps
    ensures p == q
  {
    var x, y := PlanFields(p), PlanFields(q);
    assert x[0] == y[0] && x[1] == y[1] && x[2] == y[2] && x[3] == y[3] && x[4] == y[4] && x[5] == y[5];
    assert x[6] == y[6] && x[7] == y[7] && x[8] == y[8] && x[9] == y[9] && x[10] == y[10] && x[11] == y[11];
    assert x[12] == y[12] && x[13] == y[13] && x[14] == y[14] && x[15] == y[15] && x[16] == y[16] && x[17] == y[17];
    assert x[18] == y[18] && x[19] == y[19] && x[20] == y[20] && x[21] == y[21] && x[22] == y[22] && x[23] == y[23];
  }

  lemma PlanFieldsAreAtoms(p: Payload, q: Payload)
    ensures |PlanFields(p)| == |PlanFields(q)| == 24
    ensures forall i :: 0 <= i < 24 ==> PlanFields(p)[i].key == PlanFields(q)[i].key
    ensures forall i :: 0 <= i < 24 ==> Canon(PlanFields(p)[i].value) == PlanFields(p)[i].value
  {
    forall i | 0 <= i < 24 ensures Canon(PlanFields(p)[i].value) == PlanFields(p)[i].value {
      assert Atom(PlanFields(p)[i].value);
    }
  }

  lemma PayloadFieldsFacts(p: Payload, q: Payload)
    ensures |PayloadFields(p)| == |PayloadFields(q)| == 25
    ensures forall i :: 0 <= i < 25 ==> PayloadFields(p)[i].key == PayloadFields(q)[i].key
    ensures forall i :: 0 <= i < 24 ==> PayloadFields(p)[i] == PlanFields(p)[i] && Canon(PlanFields(p)[i].value) == PlanFields(p)[i].value
    ensures PayloadFields(p)[24].value == Arr(StepsJson(p.steps))
  {
    PlanFieldsAreAtoms(p, q);
  }

  lemma PayloadCanonInjective(p: Payload, q: Payload)
    requires Canon(Obj(PayloadFields(p))) == Canon(Obj(PayloadFields(q)))
    ensures p == q
  {
    var x, y := PayloadFields(p), PayloadFields(q);
    PayloadFieldsFacts(p, q);
    PayloadFieldsFacts(q, p);
    CanonFieldsInjective(x, y);
    assert Canon(x[24].value) == Canon(y[24].value);
    StepsJsonInjective(p.steps, q.steps);
    forall i | 0 <= i < 24 ensures PlanFields(p)[i] == PlanFields(q)[i] {
      assert Canon(x[i].value) == Canon(y[i].value) && x[i].key == y[i].key;
    }
    assert PlanFields(p) == PlanFields(q);
    PlanFieldsInjective(p, q);
  }

  /** Two payloads have the same canonical text exactly when they are the same payload. */
  lemma PayloadTextInjective(p: Payload, q: Payload)
    ensures Print(PayloadJson(p)) == Print(PayloadJson(q)) <==> p == q
  {
    if Print(PayloadJson(p)) == Print(PayloadJson(q)) {
      CanonicalJsonLaws.PrintDecidesCanon(PayloadJson(p), PayloadJson(q));
      PayloadCanonInjective(p, q);
    }
  }

  // ----- What the seal guarantees -----

  /** Tamper evidence: a plan carrying P's seal passes exactly when its payload is P's. */
  lemma TamperEvidence(host: Host, p: Plan, q: Plan, expected: Option<string>)
    requires host.CollisionFree()
    requires TargetHash(q, expected) == Some(Hash(host, p))
    ensures VerifyIntegrity(host, q, expected) <==> Normalize(host, q) == Normalize(host, p)
  {
    PayloadTextInjective(Normalize(host, p), Normalize(host, q));
  }

  lemma SealVerifiesAndIsIdempotent(host: Host, p: Plan)
    ensures Normalize(host, Sealed(host, p)) == Normalize(host, p)
    ensures VerifyIntegrity(host, Sealed(host, p), None)
    ensures Sealed(host, Sealed(host, p)) == Sealed(host, p)
  {
  }

  /** Two steps that differ at most in run-time progress. */
  predicate SameButProgress(s: Step, t: Step) {
    t.(status := s.status, txHash := s.txHash, error := s.error) == s
  }

  /** Progress (status, transaction hash, error) never breaks or repairs a seal. */
  lemma ProgressKeepsSeal(host: Host, p: Plan, q: Plan, expected: Option<string>)
    requires p.header == q.header && |p.steps| == |q.steps|
    requires forall i :: 0 <= i < |p.steps| ==> SameButProgress(p.steps[i], q.steps[i])
    ensures Normalize(host, p) == Normalize(host, q)
    ensures VerifyIntegrity(host, p, expected) <==> VerifyIntegrity(host, q, expected)
  {
    forall i | 0 <= i < |p.steps| ensures NormalizeStep(host, p.steps[i]) == NormalizeStep(host, q.steps[i]) {
      assert SameButProgress(p.steps[i], q.steps[i]);
    }
    assert Normalize(host, p).steps == Normalize(host, q).steps;
  }
}
