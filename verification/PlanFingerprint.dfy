/** computeExecutionPlanHash of the Polygon runner: a hash of selected plan fields as JSON text, taken
    when the plan is built and compared again before the first broadcast. */
module PlanFingerprint {
  import opened Js
  import opened CanonicalJson
  import opened JsonText

  datatype RunnerStep = RunnerStep(id: string, kind: string, chainId: int, target: Option<string>)

  datatype RunnerPlan = RunnerPlan(
    id: string, kind: string, sourceChainId: int, destinationChainId: int,
    sourceToken: Option<string>, destinationToken: Option<string>, inputAmount: string,
    sender: Option<string>, recipient: Option<string>, steps: seq<RunnerStep>)

  function StepTree(host: Host, s: RunnerStep): Json {
    Obj([ Field("id", Str(s.id)), Field("type", Str(s.kind)), Field("chainId", Num(s.chainId)),
          Field("target", if Truthy(s.target) then Str(host.lower(s.target.value)) else Undefined) ])
  }

  function StepTrees(host: Host, steps: seq<RunnerStep>): (r: seq<Json>)
    ensures |r| == |steps| && forall i :: 0 <= i < |steps| ==> r[i] == StepTree(host, steps[i])
  {
    if steps == [] then [] else [StepTree(host, steps[0])] + StepTrees(host, steps[1..])
  }

  function HeadFields(host: Host, p: RunnerPlan): seq<Field<Json>> {
    [ Field("id", Str(p.id)), Field("type", Str(p.kind)),
      Field("sourceChainId", Num(p.sourceChainId)), Field("destinationChainId", Num(p.destinationChainId)),
      Field("sourceToken", Str(host.lower(OrEmpty(p.sourceToken)))),
      Field("destinationToken", Str(host.lower(OrEmpty(p.destinationToken)))),
      Field("inputAmount", Str(p.inputAmount)),
      Field("sender", Str(host.lower(OrEmpty(p.sender)))), Field("recipient", Str(host.lower(OrEmpty(p.recipient)))) ]
  }

  function PlanTree(host: Host, p: RunnerPlan): Json {
    Obj(HeadFields(host, p) + [Field("steps", Arr(StepTrees(host, p.steps)))])
  }

  /** computeExecutionPlanHash */
  function Fingerprint(host: Host, p: RunnerPlan): string {
    host.digest(Text(PlanTree(host, p)))
  }

  // ----- What the fingerprint sees -----

  /** Two steps the fingerprint cannot tell apart. */
  predicate StepAlike(host: Host, a: RunnerStep, b: RunnerStep) {
    && a.id == b.id && a.kind == b.kind && a.chainId == b.chainId
    && (Truthy(a.target) <==> Truthy(b.target))
    && (Truthy(a.target) && Truthy(b.target) ==> host.lower(a.target.value) == host.lower(b.target.value))
  }

  /** Two plans the fingerprint cannot tell apart: equal in every fingerprinted field, addresses up to case. */
  predicate PlanAlike(host: Host, p: RunnerPlan, q: RunnerPlan) {
    && p.id == q.id && p.kind == q.kind && p.inputAmount == q.inputAmount
    && p.sourceChainId == q.sourceChainId && p.destinationChainId == q.destinationChainId
    && host.lower(OrEmpty(p.sourceToken)) == host.lower(OrEmpty(q.sourceToken))
    && host.lower(OrEmpty(p.destinationToken)) == host.lower(OrEmpty(q.destinationToken))
    && host.lower(OrEmpty(p.sender)) == host.lower(OrEmpty(q.sender))
    && host.lower(OrEmpty(p.recipient)) == host.lower(OrEmpty(q.recipient))
    && |p.steps| == |q.steps| && forall i :: 0 <= i < |p.steps| ==> StepAlike(host, p.steps[i], q.steps[i])
  }

  lemma KeptConcat(a: seq<Field<Json>>, b: seq<Field<Json>>)
    ensures KeptFields(a + b) == KeptFields(a) + KeptFields(b)
  {
    if a == [] {
      assert a + b == b;
    } else {
      KeptConcat(a[1..], b);
      assert (a + b)[1..] == a[1..] + b;
    }
  }

  /** Fields that print as they stand are all kept. */
  lemma {:induction false} KeptAtoms(fs: seq<Field<Json>>)
    requires forall i :: 0 <= i < |fs| ==> fs[i].value.Str? || fs[i].value.Num?
    ensures KeptFields(fs) == fs
  {
    if fs != [] {
      KeptAtoms(fs[1..]);
      assert fs == [fs[0]] + fs[1..];
    }
  }

  lemma StepTreesAlike(host: Host, a: RunnerStep, b: RunnerStep)
    ensures Kept(StepTree(host, a)) == Kept(StepTree(host, b)) <==> StepAlike(host, a, b)
  {
    var x := KeptStep(host, a);
    var y := KeptStep(host, b);
    if x == y {
      assert x[0] == y[0] && x[1] == y[1] && x[2] == y[2];
      assert Truthy(a.target) <==> |x| == 4;
      assert Truthy(b.target) <==> |y| == 4;
      if |x| == 4 { assert x[3] == y[3]; }
    }
  }

  lemma KeptStep(host: Host, s: RunnerStep) returns (x: seq<Field<Json>>)
    ensures Kept(StepTree(host, s)) == Obj(x)
    ensures x == [ Field("id", Str(s.id)), Field("type", Str(s.kind)), Field("chainId", Num(s.chainId)) ]
                 + (if Truthy(s.target) then [Field("target", Str(host.lower(s.target.value)))] else [])
  {
    var head := [ Field("id", Str(s.id)), Field("type", Str(s.kind)), Field("chainId", Num(s.chainId)) ];
    var last := [ Field("target", if Truthy(s.target) then Str(host.lower(s.target.value)) else Undefined) ];
    KeptConcat(head, last);
    KeptAtoms(head);
    assert StepTree(host, s) == Obj(head + last);
    assert KeptFields(last) == (if Truthy(s.target) then last else []);
    x := KeptFields(head + last);
  }

  lemma KeptPlan(host: Host, p: RunnerPlan) returns (x: seq<Field<Json>>)
    ensures Kept(PlanTree(host, p)) == Obj(x)
    ensures x == HeadFields(host, p) + [Field("steps", Arr(KeptItems(StepTrees(host, p.steps))))]
  {
    var last := [Field("steps", Arr(StepTrees(host, p.steps)))];
    KeptConcat(HeadFields(host, p), last);
    KeptAtoms(HeadFields(host, p));
    x := KeptFields(HeadFields(host, p) + last);
  }

  lemma HeadsAlike(host: Host, p: RunnerPlan, q: RunnerPlan)
    requires HeadFields(host, p) == HeadFields(host, q)
    ensures PlanAlike(host, p.(steps := []), q.(steps := []))
  {
    var x, y := HeadFields(host, p), HeadFields(host, q);
    assert x[0] == y[0] && x[1] == y[1] && x[2] == y[2] && x[3] == y[3] && x[4] == y[4];
    assert x[5] == y[5] && x[6] == y[6] && x[7] == y[7] && x[8] == y[8];
  }

  lemma SameTextAlike(host: Host, p: RunnerPlan, q: RunnerPlan)
    requires Text(PlanTree(host, p)) == Text(PlanTree(host, q))
    ensures PlanAlike(host, p, q)
  {
    TextDecidesKept(PlanTree(host, p), PlanTree(host, q));
    var x := KeptPlan(host, p);
    var y := KeptPlan(host, q);
    var m := |HeadFields(host, p)|;
    assert m == |HeadFields(host, q)| && x[..m] == HeadFields(host, p) && y[..m] == HeadFields(host, q);
    HeadsAlike(host, p, q);
    assert x[m] == y[m];
    var a, b := StepTrees(host, p.steps), StepTrees(host, q.steps);
    assert |KeptItems(a)| == |KeptItems(b)|;
    forall i | 0 <= i < |p.steps| ensures StepAlike(host, p.steps[i], q.steps[i]) {
      assert KeptItems(a)[i] == KeptItems(b)[i];
      StepTreesAlike(host, p.steps[i], q.steps[i]);
    }
  }

  /** With a collision-free hash the comparison before the broadcast passes exactly for a plan that is
      unchanged in every fingerprinted field, addresses up to case. */
  lemma FingerprintExact(host: Host, p: RunnerPlan, q: RunnerPlan)
    requires host.CollisionFree()
    ensures Fingerprint(host, p) == Fingerprint(host, q) <==> PlanAlike(host, p, q)
  {
    if Fingerprint(host, p) == Fingerprint(host, q) {
      SameTextAlike(host, p, q);
    }
    if PlanAlike(host, p, q) {
      forall i | 0 <= i < |p.steps| ensures StepTree(host, p.steps[i]) == StepTree(host, q.steps[i]) {
        assert StepAlike(host, p.steps[i], q.steps[i]);
      }
      assert StepTrees(host, p.steps) == StepTrees(host, q.steps);
      assert HeadFields(host, p) == HeadFields(host, q);
    }
  }
}
