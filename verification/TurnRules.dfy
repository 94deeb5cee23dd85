/** What one iteration of the step loop keeps, and how iterations add up to a run. */
module TurnRules {
  import opened Js
  import opened PlanModel
  import opened RunModel
  import opened Environment
  import opened StepRules
  import opened StepWrites
  import PlanGraph
  import KahnOrder

  /** The coordinator's key for a step of a plan. */
  function Key(planId: string, stepId: string): string {
    planId + ":" + stepId
  }

  lemma KeysDiffer(planId: string, a: string, b: string)
    requires a != b
    ensures Key(planId, a) != Key(planId, b)
  {
    assert Key(planId, a)[|planId + ":"|..] == a && Key(planId, b)[|planId + ":"|..] == b;
  }

  predicate Recorded(reg: map<string, Stored>, key: string) {
    key in reg && reg[key].status == Success
  }

  function RecordedHash(reg: map<string, Stored>, key: string): Option<string> {
    if key in reg then reg[key].txHash else None
  }

  predicate StoredSuccess(s: Option<Stored>) { s.Some? && s.value.status == Success }

  function StoredHash(s: Option<Stored>): Option<string> { if s.Some? then s.value.txHash else None }

  /** The hash a skip of t's step reports. */
  function ShownHash(stored: Option<Stored>, reg: map<string, Stored>, key: string, s: Step): Option<string> {
    SkipHash(StoredHash(stored), RecordedHash(reg, key), s.txHash)
  }

  /** A step is skipped exactly when one of the three records says SUCCESS; otherwise it is never
      skipped, and only then can anything be executed. */
  predicate SkipRule(reg: map<string, Stored>, key: string, t: Turn) {
    var known := Recorded(reg, key) || t.step.status == Success;
    match t.visit
    case Skip(stored, hash) => (known || StoredSuccess(stored)) && hash == ShownHash(stored, reg, key, t.step)
    case TransactionsUnread(stored) => !known && !StoredSuccess(stored)
    case UncertainBroadcast(stored) => !known && !StoredSuccess(stored)
    case Worked(stored, _, _) => !known && !StoredSuccess(stored)
    case _ => true
  }

  function RegistryAfter(reg: map<string, Stored>, key: string, v: Visit): map<string, Stored> {
    if Completed(v) then reg[key := Stored(Success, HashOf(v))] else reg
  }

  predicate OthersKept(a: seq<Step>, b: seq<Step>, k: nat) {
    |a| == |b| && forall i :: 0 <= i < |a| && i != k ==> a[i].status == b[i].status && a[i].txHash == b[i].txHash
  }

  /** The plan before (p) and after (q) the turn of step k. */
  ghost predicate PlanTurn(p: Plan, q: Plan, k: nat, st2: RunState, t: Turn) {
    && k < |p.steps| && SamePlan(p, q) && OthersKept(p.steps, q.steps, k)
    && Mirrors(q.steps, st2.stepState)
    && t.step == p.steps[k] && t.ended == q.steps[k]
    && (Completed(t.visit) ==> q.steps[k].status == Success)
  }

  predicate DependenciesDone(deps: seq<string>, m: map<string, StepStatus>) {
    forall d :: d in deps ==> d in m && m[d] == Success
  }

  // ----- The loop -----

  /** Step id has reached SUCCESS in the plan. */
  predicate Reached(steps: seq<Step>, id: string) {
    forall k :: 0 <= k < |steps| && steps[k].id == id ==> steps[k].status == Success
  }

  /** The registry after these turns. */
  function RegistryThrough(reg0: map<string, Stored>, planId: string, turns: seq<Turn>): map<string, Stored> {
    if turns == [] then reg0
    else
      var t := turns[|turns|-1];
      RegistryAfter(RegistryThrough(reg0, planId, turns[..|turns|-1]), Key(planId, t.step.id), t.visit)
  }

  /** Turn i completed a step of this key. */
  predicate Completes(planId: string, turns: seq<Turn>, i: nat, key: string)
    requires i < |turns|
  {
    Completed(turns[i].visit) && Key(planId, turns[i].step.id) == key
  }

  /** An entry no turn completed is as it was. */
  lemma {:induction false} EntryKept(reg0: map<string, Stored>, planId: string, turns: seq<Turn>, key: string)
    requires forall i :: 0 <= i < |turns| ==> !Completes(planId, turns, i, key)
    ensures var reg := RegistryThrough(reg0, planId, turns);
            (key in reg <==> key in reg0) && (key in reg0 ==> reg[key] == reg0[key])
  {
    if turns != [] {
      var front := turns[..|turns|-1];
      forall i | 0 <= i < |front| ensures !Completes(planId, front, i, key) { assert !Completes(planId, turns, i, key); }
      EntryKept(reg0, planId, front, key);
      assert !Completes(planId, turns, |turns|-1, key);
    }
  }

  /** A completed turn's entry is its own, if no later turn completed the same step. */
  lemma {:induction false} EntryOf(reg0: map<string, Stored>, planId: string, turns: seq<Turn>, i: nat)
    requires i < |turns| && Completed(turns[i].visit)
    requires forall j :: i < j < |turns| ==> turns[j].step.id != turns[i].step.id
    ensures var reg, key := RegistryThrough(reg0, planId, turns), Key(planId, turns[i].step.id);
            key in reg && reg[key] == Stored(Success, HashOf(turns[i].visit))
  {
    if i < |turns| - 1 {
      EntryOf(reg0, planId, turns[..|turns|-1], i);
      KeysDiffer(planId, turns[|turns|-1].step.id, turns[i].step.id);
    }
  }

  /** A recorded SUCCESS stays one. */
  lemma {:induction false} SuccessStays(reg0: map<string, Stored>, planId: string, turns: seq<Turn>, key: string)
    requires Recorded(reg0, key)
    ensures Recorded(RegistryThrough(reg0, planId, turns), key)
  {
    if turns != [] { SuccessStays(reg0, planId, turns[..|turns|-1], key); }
  }

  ghost predicate SkipRules(reg0: map<string, Stored>, planId: string, turns: seq<Turn>) {
    forall i :: 0 <= i < |turns| ==> SkipRule(reg0, Key(planId, turns[i].step.id), turns[i])
  }

  /** The state the next turn starts from. */
  ghost predicate HandsOver(turns: seq<Turn>, first: Bound, next: Bound) {
    if turns == [] then next == first else turns[0].before == first && turns[|turns|-1].after == next
  }

  ghost predicate DoneSoFar(steps: seq<Step>, turns: seq<Turn>) {
    forall i :: 0 <= i < |turns| ==> Reached(steps, turns[i].step.id) && turns[i].proceeds
  }

  lemma ExtendRun(host: Host, solana: bool, p0: Plan, turns: seq<Turn>, t: Turn, first: Bound)
    requires RunOk(host, solana, p0, turns) && |turns| < |Order(p0)|
    requires forall i :: 0 <= i < |turns| ==> turns[i].proceeds
    requires HandsOver(turns, first, t.before)
    requires TurnOk(host, solana, t) && t.step.id == Order(p0)[|turns|] && !t.visit.Blocked?
    requires exists k :: 0 <= k < |p0.steps| && SameStep(p0.steps[k], t.step)
    requires DepositInStep(p0, t)
    ensures RunOk(host, solana, p0, turns + [t])
    ensures HandsOver(turns + [t], first, t.after)
  {
    var all := turns + [t];
    forall i, j | 0 <= i < |all| && 0 <= j < |all| && j == i + 1 ensures all[j].before == all[i].after {
      if j == |turns| { assert all[i] == turns[|turns|-1]; }
    }
  }

  /** The first deposit's turn sees its own amount. */
  lemma DepositSeen(hash: Plan -> string, p0: Plan, p: Plan, st: RunState, k: nat, t: Turn)
    requires SamePlan(p0, p) && UniqueIds(p.steps) && k < |p.steps|
    requires t.step == p.steps[k] && t.before == BoundOf(hash, p, st)
    ensures DepositInStep(p0, t)
    ensures exists i :: 0 <= i < |p0.steps| && SameStep(p0.steps[i], t.step)
  {
    SameStepsFacts(p0.steps, p.steps, BridgeDeposit);
    assert SameStep(p0.steps[k], p.steps[k]);
    var d := FindKind(p0.steps, BridgeDeposit);
    if d.Some? { assert SameStep(p0.steps[d.value], p.steps[d.value]); }
  }

  /** Everything before step n of the order being SUCCESS, the guard lets step n through. */
  lemma DependenciesReady(p0: Plan, p: Plan, m: map<string, StepStatus>, turns: seq<Turn>, k: nat)
    requires SamePlan(p0, p) && PlanGraph.Valid(Graph(p0.steps)) && Mirrors(p.steps, m) && k < |p.steps|
    requires |turns| < |Order(p0)| && p.steps[k].id == Order(p0)[|turns|] && DoneSoFar(p.steps, turns)
    requires forall i :: 0 <= i < |turns| ==> turns[i].step.id == Order(p0)[i]
    ensures DependenciesDone(p.steps[k].dependencies, m)
  {
    var g, n := Graph(p0.steps), |turns|;
    KahnOrder.OrderIsPermutation(g);
    forall d | d in p.steps[k].dependencies ensures d in m && m[d] == Success {
      assert SameStep(p0.steps[k], p.steps[k]);
      assert g[k].id == Order(p0)[n] && d in g[k].deps;
      assert PlanGraph.DependsOn(g, Order(p0)[n], d);
      var i := IndexOf(Order(p0)[..n], d);
      assert Order(p0)[i] == d && turns[i].step.id == d;
      assert d in multiset(PlanGraph.Ids(g));
      var j :| 0 <= j < |p0.steps| && p0.steps[j].id == d;
      assert SameStep(p0.steps[j], p.steps[j]);
    }
  }

  lemma ExtendDone(p: Plan, q: Plan, k: nat, st2: RunState, turns: seq<Turn>, t: Turn)
    requires PlanTurn(p, q, k, st2, t) && UniqueIds(p.steps) && DoneSoFar(p.steps, turns)
    requires forall i :: 0 <= i < |turns| ==> turns[i].step.id != t.step.id
    requires t.proceeds && Completed(t.visit)
    ensures DoneSoFar(q.steps, turns + [t])
  {
    var all := turns + [t];
    forall i | 0 <= i < |all| ensures Reached(q.steps, all[i].step.id) && all[i].proceeds {
      forall j | 0 <= j < |q.steps| && q.steps[j].id == all[i].step.id ensures q.steps[j].status == Success {
        assert SameStep(p.steps[j], q.steps[j]);
        if i < |turns| { assert Reached(p.steps, turns[i].step.id); }
      }
    }
  }

  lemma ExtendRegistry(reg0: map<string, Stored>, reg: map<string, Stored>, planId: string, turns: seq<Turn>, t: Turn)
    requires reg == RegistryThrough(reg0, planId, turns) && SkipRules(reg0, planId, turns)
    requires forall i :: 0 <= i < |turns| ==> turns[i].step.id != t.step.id
    requires SkipRule(reg, Key(planId, t.step.id), t)
    ensures RegistryAfter(reg, Key(planId, t.step.id), t.visit) == RegistryThrough(reg0, planId, turns + [t])
    ensures SkipRules(reg0, planId, turns + [t])
  {
    var key, all := Key(planId, t.step.id), turns + [t];
    assert all[..|all|-1] == turns;
    forall i | 0 <= i < |turns| ensures !Completes(planId, turns, i, key) {
      KeysDiffer(planId, turns[i].step.id, t.step.id);
    }
    EntryKept(reg0, planId, turns, key);
    assert all[|turns|] == t && forall i :: 0 <= i < |turns| ==> all[i] == turns[i];
  }

  /** The loop invariant on values: the turns so far form a run on p0 that led to plan q. */
  ghost predicate LoopOk(host: Host, solana: bool, p0: Plan, q: Plan, first: Bound, now: Bound, turns: seq<Turn>) {
    RunOk(host, solana, p0, turns) && SamePlan(p0, q) && HandsOver(turns, first, now)
  }

  lemma SamePlanTrans(a: Plan, b: Plan, c: Plan)
    requires SamePlan(a, b) && SamePlan(b, c)
    ensures SamePlan(a, c)
  {
    forall i | 0 <= i < |a.steps| ensures SameStep(a.steps[i], c.steps[i]) {
      assert SameStep(a.steps[i], b.steps[i]) && SameStep(b.steps[i], c.steps[i]);
    }
  }

  /** Step n of the order is found among the ids, where the plan still has it. */
  lemma OrderIndex(p0: Plan, q: Plan, n: nat)
    requires SamePlan(p0, q) && PlanGraph.Valid(Graph(p0.steps)) && n < |Order(p0)|
    ensures var ids := PlanGraph.Ids(Graph(p0.steps));
            Order(p0)[n] in ids && forall k :: 0 <= k < |ids| ==> ids[k] == q.steps[k].id
  {
    KahnOrder.OrderIsPermutation(Graph(p0.steps));
    assert Order(p0)[n] in multiset(PlanGraph.Ids(Graph(p0.steps)));
    forall k | 0 <= k < |p0.steps| ensures p0.steps[k].id == q.steps[k].id { assert SameStep(p0.steps[k], q.steps[k]); }
  }

  lemma NextIsNew(p0: Plan, p: Plan, turns: seq<Turn>, k: nat)
    requires SamePlan(p0, p) && PlanGraph.Valid(Graph(p0.steps)) && k < |p.steps|
    requires |turns| < |Order(p0)| && p.steps[k].id == Order(p0)[|turns|]
    requires forall i :: 0 <= i < |turns| ==> turns[i].step.id == Order(p0)[i]
    ensures UniqueIds(p.steps)
    ensures forall i :: 0 <= i < |turns| ==> turns[i].step.id != p.steps[k].id
  {
    KahnOrder.OrderIsPermutation(Graph(p0.steps));
    forall i, j | 0 <= i < j < |p.steps| ensures p.steps[i].id != p.steps[j].id {
      assert SameStep(p0.steps[i], p.steps[i]) && SameStep(p0.steps[j], p.steps[j]);
      assert Graph(p0.steps)[i].id != Graph(p0.steps)[j].id;
    }
  }

  /** Every step is SUCCESS in the plan, in the step map and in the registry. */
  predicate AllSuccess(q: Plan, m: map<string, StepStatus>, reg: map<string, Stored>) {
    forall k :: 0 <= k < |q.steps| ==>
      var id := q.steps[k].id;
      q.steps[k].status == Success && id in m && m[id] == Success && Recorded(reg, Key(q.header.planId, id))
  }

  lemma CompleteRun(host: Host, solana: bool, p0: Plan, q: Plan, m: map<string, StepStatus>,
                    reg0: map<string, Stored>, turns: seq<Turn>)
    requires PlanGraph.Valid(Graph(p0.steps)) && SamePlan(p0, q) && Mirrors(q.steps, m)
    requires RunOk(host, solana, p0, turns) && |turns| == |Order(p0)| && DoneSoFar(q.steps, turns)
    ensures AllSuccess(q, m, RegistryThrough(reg0, p0.header.planId, turns))
  {
    KahnOrder.OrderIsPermutation(Graph(p0.steps));
    forall k | 0 <= k < |q.steps|
      ensures q.steps[k].status == Success && Recorded(RegistryThrough(reg0, p0.header.planId, turns), Key(q.header.planId, q.steps[k].id))
    {
      assert SameStep(p0.steps[k], q.steps[k]);
      assert PlanGraph.Ids(Graph(p0.steps))[k] == q.steps[k].id;
      assert q.steps[k].id in multiset(Order(p0));
      var i :| 0 <= i < |turns| && Order(p0)[i] == q.steps[k].id;
      assert TurnFits(host, solana, p0, i, turns[i]) && ProceedsOk(turns[i]) && Reached(q.steps, turns[i].step.id);
      forall j | i < j < |turns| ensures turns[j].step.id != turns[i].step.id { assert TurnFits(host, solana, p0, j, turns[j]); }
      EntryOf(reg0, p0.header.planId, turns, i);
    }
  }

  /** One more turn on the loop invariant: p and q are the plan before and after it. */
  lemma ExtendLoop(host: Host, solana: bool, hash: Plan -> string, p0: Plan, p: Plan, q: Plan, k: nat, st: RunState, st2: RunState,
                   turns: seq<Turn>, t: Turn, first: Bound)
    requires PlanGraph.Valid(Graph(p0.steps)) && |turns| < |Order(p0)| && k < |p.steps| && p.steps[k].id == Order(p0)[|turns|]
    requires LoopOk(host, solana, p0, p, first, BoundOf(hash, p, st), turns) && DoneSoFar(p.steps, turns)
    requires PlanTurn(p, q, k, st2, t) && t.before == BoundOf(hash, p, st) && TurnOk(host, solana, t) && !t.visit.Blocked?
    ensures LoopOk(host, solana, p0, q, first, t.after, turns + [t])
    ensures t.proceeds ==> DoneSoFar(q.steps, turns + [t])
  {
    NextIsNew(p0, p, turns, k);
    DepositSeen(hash, p0, p, st, k, t);
    ExtendRun(host, solana, p0, turns, t, first);
    if t.proceeds { ExtendDone(p, q, k, st2, turns, t); }
    SamePlanTrans(p0, p, q);
  }
}
