/** Safety of whole runs, derived from the shape of their turns. */
module RunLaws {
  import opened Js
  import opened PlanModel
  import opened CanonicalJson
  import opened RunModel
  import PlanGraph
  import KahnOrder
  import PlanValidator

  // ----- Dependencies before effects -----

  /** An outside effect of a step happens only after every transitive dependency is SUCCESS. */
  lemma EffectsFollowDependencies(host: Host, solana: bool, p: Plan, turns: seq<Turn>, i: nat, walk: seq<string>) returns (j: nat)
    requires RunOk(host, solana, p, turns) && PlanGraph.Valid(Graph(p.steps))
    requires i < |turns| && |walk| >= 2 && PlanGraph.Walk(Graph(p.steps), walk) && walk[0] == turns[i].step.id
    ensures j < i && turns[j].step.id == walk[|walk|-1] && Completed(turns[j].visit)
  {
    var g := Graph(p.steps);
    KahnOrder.OrderIsPermutation(g);
    PlanGraph.TransitiveDepsFirst(g, Order(p), walk, i);
    j := IndexOf(Order(p)[..i], walk[|walk|-1]);
    assert Order(p)[..i][j] == Order(p)[j];
  }

  /** Swap before bridge: if the first deposit's turn does anything, the first swap is already SUCCESS. */
  lemma SwapSucceedsBeforeDeposit(host: Host, solana: bool, p: Plan, lookups: Lookups, turns: seq<Turn>, j: nat) returns (i: nat)
    requires PlanValidator.Accepted(host, lookups, p) && RunOk(host, solana, p, turns)
    requires FindKind(p.steps, SourceSwap).Some? && FindKind(p.steps, BridgeDeposit).Some?
    requires j < |turns| && turns[j].step.id == p.steps[FindKind(p.steps, BridgeDeposit).value].id
    ensures i < j && turns[i].step.id == p.steps[FindKind(p.steps, SourceSwap).value].id && Completed(turns[i].visit)
  {
    var s := FindKind(p.steps, SourceSwap).value;
    PlanValidator.PlaceInOrder(p.steps, s);
    i := IndexOf(Order(p), p.steps[s].id);
    PlanValidator.SwapPlacedBeforeDeposit(host, lookups, p, i, j);
  }

  // ----- Leases -----

  /** Leases held after a trace of events. */
  function Held(trace: seq<LeaseEvent>): set<string> {
    if trace == [] then {}
    else
      var before, e := Held(trace[..|trace|-1]), trace[|trace|-1];
      match e
      case Taken(id) => before + {id}
      case Released(id) => before - {id}
      case Called(_, _) => before
  }

  function Trace(turns: seq<Turn>): seq<LeaseEvent> {
    if turns == [] then [] else Trace(turns[..|turns|-1]) + Events(turns[|turns|-1])
  }

  lemma TraceGrows(before: seq<LeaseEvent>, turns: seq<Turn>, t: Turn)
    ensures before + Trace(turns) + Events(t) == before + Trace(turns + [t])
  {
    assert (turns + [t])[..|turns + [t]|-1] == turns;
  }

  lemma {:induction false} HeldConcat(a: seq<LeaseEvent>, b: seq<LeaseEvent>, id: string)
    requires Held(a) == {}
    requires forall k :: 0 <= k < |b| ==> b[k].id == id
    ensures Held(a + b) == Held(b) && Held(b) <= {id}
  {
    if b == [] {
      assert a + b == a;
    } else {
      HeldConcat(a, b[..|b|-1], id);
      assert (a + b)[..|a+b|-1] == a + b[..|b|-1];
    }
  }

  lemma {:induction false} WorkEventsOwn(id: string, work: seq<Work>)
    ensures forall k :: 0 <= k < |WorkEvents(id, work)| ==> WorkEvents(id, work)[k].id == id && WorkEvents(id, work)[k].Called?
  {
    if work != [] { WorkEventsOwn(id, work[1..]); }
  }

  /** What a turn's lease has become when the turn is over. */
  function Leftover(t: Turn): set<string> {
    if TookLease(t.visit) && !t.released then {t.step.id} else {}
  }

  lemma {:induction false} HeldWhileWorking(id: string, work: seq<Work>, m: nat)
    requires 0 < m <= 1 + |WorkEvents(id, work)|
    ensures Held(([Taken(id)] + WorkEvents(id, work))[..m]) == {id}
  {
    WorkEventsOwn(id, work);
    var ev := [Taken(id)] + WorkEvents(id, work);
    if m == 1 {
      assert ev[..1] == [Taken(id)];
      assert [Taken(id)][..0] == [];
    } else {
      HeldWhileWorking(id, work, m - 1);
      assert ev[..m][..m-1] == ev[..m-1];
      assert ev[..m][m-1] == WorkEvents(id, work)[m-2];
    }
  }

  lemma EventsOwn(t: Turn)
    ensures forall k :: 0 <= k < |Events(t)| ==> Events(t)[k].id == t.step.id
    ensures Held(Events(t)) == Leftover(t)
  {
    if TookLease(t.visit) {
      var id, work := t.step.id, WorkOf(t.visit);
      WorkEventsOwn(id, work);
      var ev := [Taken(id)] + WorkEvents(id, work);
      HeldWhileWorking(id, work, |ev|);
      assert ev[..|ev|] == ev;
      if t.released {
        assert Events(t)[..|Events(t)|-1] == ev;
      } else {
        assert Events(t) == ev;
      }
    }
  }

  lemma {:induction false} LeasesAtEnd(turns: seq<Turn>)
    requires forall i :: 0 <= i < |turns| - 1 ==> turns[i].released
    ensures Held(Trace(turns)) == if turns == [] then {} else Leftover(turns[|turns|-1])
  {
    if turns != [] {
      var front, t := turns[..|turns|-1], turns[|turns|-1];
      LeasesAtEnd(front);
      EventsOwn(t);
      HeldConcat(Trace(front), Events(t), t.step.id);
    }
  }

  /** Leases after a run, finished or not: none, unless the release of its last step threw, and then
      that step's alone. Before the last turn none was held between turns. */
  lemma LeasesReleased(host: Host, solana: bool, p: Plan, turns: seq<Turn>, n: nat)
    requires RunOk(host, solana, p, turns) && n <= |turns|
    ensures Held(Trace(turns[..n])) == if n == |turns| && n > 0 then Leftover(turns[n-1]) else {}
  {
    forall i | 0 <= i < |turns| - 1 ensures turns[i].released { assert ProceedsOk(turns[i]); }
    LeasesAtEnd(turns[..n]);
  }

  /** At every moment of a run at most one lease is held, and an outside call is made only under the
      lease of its own step. */
  lemma OneLeaseAtATime(host: Host, solana: bool, p: Plan, turns: seq<Turn>, n: nat)
    requires RunOk(host, solana, p, turns) && n < |Trace(turns)|
    ensures |Held(Trace(turns)[..n])| <= 1
    ensures Trace(turns)[n].Called? ==> Held(Trace(turns)[..n]) == {Trace(turns)[n].id}
  {
    forall i | 0 <= i < |turns| - 1 ensures turns[i].released { assert ProceedsOk(turns[i]); }
    OneLease(turns, n);
  }

  lemma {:induction false} OneLease(turns: seq<Turn>, n: nat)
    requires n < |Trace(turns)| && forall i :: 0 <= i < |turns| - 1 ==> turns[i].released
    ensures |Held(Trace(turns)[..n])| <= 1
    ensures Trace(turns)[n].Called? ==> Held(Trace(turns)[..n]) == {Trace(turns)[n].id}
  {
    var front, t := turns[..|turns|-1], turns[|turns|-1];
    var before, ev := Trace(front), Events(t);
    if n < |before| {
      OneLease(front, n);
      assert Trace(turns)[..n] == before[..n];
    } else {
      var m := n - |before|;
      assert Trace(turns)[..n] == before + ev[..m] && Trace(turns)[n] == ev[m];
      LeasesAtEnd(front);
      EventsOwn(t);
      HeldConcat(before, ev[..m], t.step.id);
      HeldWithin(t, m);
    }
  }

  /** Inside a turn its own lease is held at every event but the first. */
  lemma HeldWithin(t: Turn, m: nat)
    requires m < |Events(t)|
    ensures |Held(Events(t)[..m])| <= 1
    ensures Events(t)[m].Called? ==> Held(Events(t)[..m]) == {t.step.id} == {Events(t)[m].id}
  {
    var id, work := t.step.id, WorkOf(t.visit);
    WorkEventsOwn(id, work);
    EventsOwn(t);
    if m > 0 {
      HeldWhileWorking(id, work, m);
      assert Events(t)[..m] == ([Taken(id)] + WorkEvents(id, work))[..m];
    }
  }

  // ----- Amount continuity -----

  lemma {:induction false} OutputPersists(host: Host, solana: bool, p: Plan, turns: seq<Turn>, i: nat, j: nat)
    requires RunOk(host, solana, p, turns) && i < j < |turns| && turns[i].after.output.Some?
    ensures turns[j].before.output == turns[i].after.output
    decreases j - i
  {
    if i + 1 < j { OutputPersists(host, solana, p, turns, i, j - 1); }
  }

  /** What a deposit broadcasts is the output that was known before it; every refresh that ran with
      the output known asked for that amount, and every executed EVM swap that left it known met its
      stated minimum with it. */
  lemma AmountContinuity(host: Host, solana: bool, p: Plan, turns: seq<Turn>, i: nat, j: nat, v: int)
    requires RunOk(host, solana, p, turns) && i < j < |turns|
    requires turns[j].step.kind == BridgeDeposit && turns[j].visit.Worked? && turns[j].before.output == Some(v)
    ensures forall a :: Did(Transact(a)) in turns[j].visit.work ==> a == Some(Decimal(v))
    ensures turns[i].step.kind == BridgeQuoteRefresh && turns[i].visit.Worked? && turns[i].before.output.Some? ==>
              forall a :: Did(RequestQuote(a)) in turns[i].visit.work ==> a == Decimal(v)
    ensures turns[i].step.kind == SourceSwap && !solana && turns[i].visit.Worked? && turns[i].after.output.Some?
            && Truthy(turns[i].step.minimumAmountOutRaw) ==>
              host.bigInt(turns[i].step.minimumAmountOutRaw.value).Some?
              && host.bigInt(turns[i].step.minimumAmountOutRaw.value).value <= v
  {
    if turns[i].after.output.Some? { OutputPersists(host, solana, p, turns, i, j); }
  }

  /** With a single source swap in the plan, "left it known" is automatic: if the output is known at
      a later turn, it was known when the swap's turn ended. */
  lemma {:induction false} KnownSinceTheSwap(host: Host, solana: bool, p: Plan, turns: seq<Turn>, i: nat, j: nat)
    requires RunOk(host, solana, p, turns) && i < j < |turns| && turns[j].before.output.Some?
    requires forall k :: i < k < |turns| ==> turns[k].step.kind != SourceSwap
    ensures turns[i].after.output == turns[j].before.output
    decreases j - i
  {
    if i + 1 < j { KnownSinceTheSwap(host, solana, p, turns, i, j - 1); }
  }

  // ----- The seal at every step boundary -----

  ghost predicate Unsealing(t: Turn) { t.visit.Worked? && Unsealed in t.visit.work }

  /** A refresh that obtained its quote, and so resealed the plan. */
  ghost predicate Refreshed(t: Turn) {
    t.step.kind == BridgeQuoteRefresh && t.visit.Worked? && t.visit.result.Some? && Resealed in t.visit.work
  }

  ghost predicate OnlyOne(p: Plan, kind: StepKind) {
    forall i, j :: 0 <= i < j < |p.steps| ==> !(p.steps[i].kind == p.steps[j].kind == kind)
  }

  /** The seal holds at every boundary of a run without unsealed writes, and is lost by the first one. */
  lemma {:induction false} SealFollowsWrites(host: Host, solana: bool, p: Plan, turns: seq<Turn>, i: nat)
    requires RunOk(host, solana, p, turns) && i < |turns| && turns[0].before.sealed
    requires forall k :: 0 <= k < i ==> !Unsealing(turns[k])
    ensures turns[i].before.sealed
    ensures !Unsealing(turns[i]) ==> turns[i].after.sealed
    ensures Unsealing(turns[i]) && host.CollisionFree() ==> !turns[i].after.sealed
  {
    if i > 0 { SealFollowsWrites(host, solana, p, turns, i - 1); }
  }

  /** The planned step a turn is about. */
  lemma PlannedStep(host: Host, solana: bool, p: Plan, turns: seq<Turn>, i: nat) returns (a: nat)
    requires RunOk(host, solana, p, turns) && i < |turns|
    ensures a < |p.steps| && p.steps[a].id == turns[i].step.id == Order(p)[i] && p.steps[a].kind == turns[i].step.kind
  {
    assert TurnFits(host, solana, p, i, turns[i]);
    a :| 0 <= a < |p.steps| && SameStep(p.steps[a], turns[i].step);
  }

  lemma OneTurnPerStep(host: Host, solana: bool, p: Plan, turns: seq<Turn>, i: nat, j: nat)
    requires RunOk(host, solana, p, turns) && PlanGraph.Valid(Graph(p.steps))
    requires i < |turns| && j < |turns| && turns[i].step.kind == turns[j].step.kind && OnlyOne(p, turns[i].step.kind)
    ensures i == j
  {
    KahnOrder.OrderIsPermutation(Graph(p.steps));
    var a := PlannedStep(host, solana, p, turns, i);
    var b := PlannedStep(host, solana, p, turns, j);
    assert a == b;
  }

  /** From a refresh on, with no swap in between, the output stays what the refresh saw, and a
      tracked deposit amount stays what it asked for, up to the deposit's own turn. */
  lemma {:induction false} RefreshPersists(host: Host, solana: bool, p: Plan, turns: seq<Turn>, r: nat, j: nat)
    requires RunOk(host, solana, p, turns) && r < j < |turns| && Refreshed(turns[r])
    requires forall k :: r < k < j ==> turns[k].step.kind !in {SourceSwap, BridgeDeposit, BridgeQuoteRefresh}
    ensures turns[j].before.output == turns[r].before.output
    ensures turns[r].before.deposit.Amount? ==> turns[j].before.deposit == Amount(Some(RefreshAmount(turns[r])))
    ensures turns[r].before.deposit.NoDeposit? ==> turns[j].before.deposit.NoDeposit?
    decreases j - r
  {
    if r + 1 < j { RefreshPersists(host, solana, p, turns, r, j - 1); }
  }

  /** Seal maintenance, refreshed plans: with one deposit, one refresh that obtained its quote before
      the deposit, and no swap after it, the stored hash is the plan's hash at every step boundary. */
  lemma RefreshedRunStaysSealed(host: Host, solana: bool, p: Plan, turns: seq<Turn>, r: nat, i: nat)
    requires RunOk(host, solana, p, turns) && PlanGraph.Valid(Graph(p.steps))
    requires r < |turns| && i < |turns| && turns[0].before.sealed && Refreshed(turns[r])
    requires OnlyOne(p, BridgeDeposit) && OnlyOne(p, BridgeQuoteRefresh)
    requires forall k :: 0 <= k < |turns| && turns[k].step.kind == BridgeDeposit ==> r < k
    requires forall k :: r < k < |turns| ==> turns[k].step.kind != SourceSwap
    ensures turns[i].before.sealed && turns[i].after.sealed
  {
    forall k | 0 <= k < |turns| ensures !Unsealing(turns[k]) {
      if turns[k].step.kind == BridgeQuoteRefresh {
        OneTurnPerStep(host, solana, p, turns, k, r);
      } else if turns[k].step.kind == BridgeDeposit {
        DepositAfterRefresh(host, solana, p, turns, r, k);
      }
    }
    SealFollowsWrites(host, solana, p, turns, i);
  }

  lemma DepositAfterRefresh(host: Host, solana: bool, p: Plan, turns: seq<Turn>, r: nat, k: nat)
    requires RunOk(host, solana, p, turns) && PlanGraph.Valid(Graph(p.steps))
    requires r < k < |turns| && Refreshed(turns[r]) && turns[k].step.kind == BridgeDeposit
    requires OnlyOne(p, BridgeDeposit) && OnlyOne(p, BridgeQuoteRefresh)
    requires forall m :: r < m < |turns| ==> turns[m].step.kind != SourceSwap
    ensures !Unsealing(turns[k])
  {
    forall m | r < m < k ensures turns[m].step.kind !in {SourceSwap, BridgeDeposit, BridgeQuoteRefresh} {
      if turns[m].step.kind == BridgeDeposit { OneTurnPerStep(host, solana, p, turns, m, k); }
      if turns[m].step.kind == BridgeQuoteRefresh { OneTurnPerStep(host, solana, p, turns, m, r); }
    }
    RefreshPersists(host, solana, p, turns, r, k);
    var a :| 0 <= a < |p.steps| && SameStep(p.steps[a], turns[k].step);
    assert FindKind(p.steps, BridgeDeposit).value == a;
    assert DepositInStep(p, turns[k]);
  }

  /** Seal maintenance, plain plans: with no output ever known and no refresh, every boundary is sealed. */
  lemma {:induction false} PlainRunStaysSealed(host: Host, solana: bool, p: Plan, turns: seq<Turn>, i: nat)
    requires RunOk(host, solana, p, turns) && i < |turns|
    requires turns[0].before.sealed && turns[0].before.output.None?
    requires forall k :: 0 <= k < |turns| ==> turns[k].step.kind != SourceSwap && turns[k].step.kind != BridgeQuoteRefresh
    ensures turns[i].before.sealed && turns[i].after.sealed && turns[i].after.output.None?
  {
    if i > 0 { PlainRunStaysSealed(host, solana, p, turns, i - 1); }
  }

  // ----- Replay -----

  /** Two finished runs over the same kinds of steps whose hashes agree, where they matter, report the same hashes. */
  lemma {:induction false} SameHashes(host: Host, solana: bool, p: Plan, a: seq<Turn>, solana2: bool, p2: Plan, b: seq<Turn>, n: nat)
    requires RunOk(host, solana, p, a) && RunOk(host, solana2, p2, b) && n < |a| && n < |b|
    requires a[0].before.txHash == b[0].before.txHash && a[0].before.destTxHash == b[0].before.destTxHash
    requires forall k :: 0 <= k <= n ==> a[k].proceeds && b[k].proceeds && a[k].step.kind == b[k].step.kind
    requires forall k :: 0 <= k <= n && (SourceHashKind(a[k].step.kind) || DestHashKind(a[k].step.kind)) ==>
               OrEmpty(HashOf(a[k].visit)) == OrEmpty(HashOf(b[k].visit))
    ensures a[n].after.txHash == b[n].after.txHash && a[n].after.destTxHash == b[n].after.destTxHash
  {
    if n > 0 { SameHashes(host, solana, p, a, solana2, p2, b, n - 1); }
  }
}
