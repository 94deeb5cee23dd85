/** Writes to the step objects of a running plan, and what each write does to the plan's seal. */
module StepWrites {
  import opened Js
  import opened PlanModel
  import opened RunModel
  import PlanSeal

  /** No step object occurs twice in the plan. */
  predicate Separate(plan: ExecutionPlan) {
    forall i, j :: 0 <= i < j < |plan.steps| ==> plan.steps[i] != plan.steps[j]
  }

  /** One assignment to a step object, seen through the plan that shares it. */
  method SetStep(plan: ExecutionPlan, k: nat, s: Step)
    requires Separate(plan) && k < |plan.steps|
    modifies plan.steps[k]
    ensures plan.View() == old(plan.View()).(steps := old(plan.Steps())[k := s])
  {
    plan.steps[k].fields := s;
    assert plan.Steps() == old(plan.Steps())[k := s];
  }

  // ----- Step lists that differ only in what a run may change -----

  predicate SameSteps(a: seq<Step>, b: seq<Step>) {
    |a| == |b| && forall i :: 0 <= i < |a| ==> SameStep(a[i], b[i])
  }

  lemma SameStepsFacts(a: seq<Step>, b: seq<Step>, kind: StepKind)
    requires SameSteps(a, b)
    ensures Graph(a) == Graph(b) && FindKind(a, kind) == FindKind(b, kind)
  {
    forall i | 0 <= i < |a| ensures Graph(a)[i] == Graph(b)[i] { assert SameStep(a[i], b[i]); }
    FindKindSame(a, b, kind);
  }

  lemma FindKindSame(a: seq<Step>, b: seq<Step>, kind: StepKind)
    requires |a| == |b| && forall i :: 0 <= i < |a| ==> a[i].kind == b[i].kind
    ensures FindKind(a, kind) == FindKind(b, kind)
  {
    var x, y := FindKind(a, kind), FindKind(b, kind);
    assert x.Some? ==> b[x.value].kind == kind;
    assert y.Some? ==> a[y.value].kind == kind;
  }

  // ----- The seal -----

  // The plan hash is handed around as a function value, so that proofs about runs use what is
  // known of it (ProgressWrite, AmountWrite) and not how it is computed.

  ghost predicate HashAgrees(host: Host, hash: Plan -> string, p: Plan) {
    hash(p) == PlanSeal.Hash(host, p)
  }

  /** hash is computeExecutionPlanHash. */
  ghost predicate IsPlanHash(host: Host, hash: Plan -> string) {
    forall p :: HashAgrees(host, hash, p)
  }

  ghost function PlanHash(host: Host): (hash: Plan -> string)
    ensures IsPlanHash(host, hash)
  {
    var hash := (p: Plan) => PlanSeal.Hash(host, p);
    assert forall p :: HashAgrees(host, hash, p);
    hash
  }

  /** The stored hash is the recomputed one. */
  predicate SealedNow(hash: Plan -> string, p: Plan) {
    p.header.integrityHash == Some(hash(p))
  }

  function DepositOf(steps: seq<Step>): DepositAmount {
    match FindKind(steps, BridgeDeposit)
    case None => NoDeposit
    case Some(d) => Amount(steps[d].requiredAmountRaw)
  }

  /** A write to step k that keeps its hashed fields keeps the seal and the tracked amount. */
  lemma ProgressWrite(host: Host, hash: Plan -> string, p: Plan, k: nat, s: Step)
    requires IsPlanHash(host, hash) && k < |p.steps| && PlanSeal.SameButProgress(p.steps[k], s)
    ensures SealedNow(hash, p.(steps := p.steps[k := s])) == SealedNow(hash, p)
    ensures DepositOf(p.steps[k := s]) == DepositOf(p.steps)
  {
    assert HashAgrees(host, hash, p) && HashAgrees(host, hash, p.(steps := p.steps[k := s]));
    PlanSeal.ProgressKeepsSeal(host, p, p.(steps := p.steps[k := s]), None);
    FindKindSame(p.steps, p.steps[k := s], BridgeDeposit);
  }

  function WithAmount(steps: seq<Step>, k: nat, amount: string): seq<Step>
    requires k < |steps|
  {
    steps[k := steps[k].(requiredAmountRaw := Some(amount))]
  }

  /** Changing the amount of a step without resealing breaks the seal exactly when the hashed amount changes. */
  lemma AmountWrite(host: Host, hash: Plan -> string, p: Plan, k: nat, amount: string)
    requires IsPlanHash(host, hash) && k < |p.steps|
    ensures amount == OrEmpty(p.steps[k].requiredAmountRaw) ==>
      SealedNow(hash, p.(steps := WithAmount(p.steps, k, amount))) == SealedNow(hash, p)
    ensures amount != OrEmpty(p.steps[k].requiredAmountRaw) && SealedNow(hash, p) && host.CollisionFree() ==>
      !SealedNow(hash, p.(steps := WithAmount(p.steps, k, amount)))
  {
    var q := p.(steps := WithAmount(p.steps, k, amount));
    assert HashAgrees(host, hash, p) && HashAgrees(host, hash, q);
    var a, b := PlanSeal.Normalize(host, p), PlanSeal.Normalize(host, q);
    assert b.steps[k].requiredAmountRaw == amount && a.steps[k].requiredAmountRaw == OrEmpty(p.steps[k].requiredAmountRaw);
    if amount == OrEmpty(p.steps[k].requiredAmountRaw) {
      assert forall i :: 0 <= i < |p.steps| ==> a.steps[i] == b.steps[i];
      assert a == b;
    } else {
      PlanSeal.PayloadTextInjective(a, b);
    }
  }

  /** What a change of the first deposit's amount, and nothing else, does to the tracked amount. */
  lemma DepositWrite(steps: seq<Step>, k: nat, s: Step)
    requires k < |steps| && s.kind == steps[k].kind
    ensures FindKind(steps, BridgeDeposit) == Some(k) ==> DepositOf(steps[k := s]) == Amount(s.requiredAmountRaw)
    ensures FindKind(steps, BridgeDeposit) != Some(k) ==> DepositOf(steps[k := s]) == DepositOf(steps)
  {
    FindKindSame(steps, steps[k := s], BridgeDeposit);
  }

  // ----- What a run carries, read off the plan and the locals -----

  /** Locals of a run: stepStateMap (reduced to the statuses it is read for), the two hashes, and
      lastSourceSwapOutput. */
  datatype RunState = RunState(stepState: map<string, StepStatus>, txHash: string, destTxHash: Option<string>, output: Option<int>)

  function BoundOf(hash: Plan -> string, p: Plan, st: RunState): Bound {
    Bound(st.output, SealedNow(hash, p), DepositOf(p.steps), st.txHash, st.destTxHash)
  }

  /** The step map shows every step's current status. */
  predicate Mirrors(steps: seq<Step>, m: map<string, StepStatus>) {
    forall i :: 0 <= i < |steps| ==> steps[i].id in m && m[steps[i].id] == steps[i].status
  }

  predicate UniqueIds(steps: seq<Step>) {
    forall i, j :: 0 <= i < j < |steps| ==> steps[i].id != steps[j].id
  }

  lemma MirrorWrite(steps: seq<Step>, m: map<string, StepStatus>, k: nat, s: Step)
    requires UniqueIds(steps) && k < |steps| && s.id == steps[k].id && Mirrors(steps, m)
    ensures Mirrors(steps[k := s], m[s.id := s.status])
  {
  }

  /** A run rewrites nothing in a plan header but the quoted amounts and the seal. */
  predicate SameHeader(a: Header, b: Header) {
    a.(expectedAmountOutRaw := b.expectedAmountOutRaw, minimumAmountOutRaw := b.minimumAmountOutRaw,
       integrityHash := b.integrityHash, planHash := b.planHash) == b
  }

  predicate SamePlan(a: Plan, b: Plan) {
    SameHeader(a.header, b.header) && SameSteps(a.steps, b.steps)
  }

  /** Every step's status, hash and error are as before. */
  predicate SameProgress(a: seq<Step>, b: seq<Step>) {
    |a| == |b| && forall i :: 0 <= i < |a| ==> a[i].status == b[i].status && a[i].txHash == b[i].txHash && a[i].error == b[i].error
  }
}
