/** Many trades on one coordinator, one after another: what its registry keeps, and what running a
    finished plan again does. */
module Replay {
  import opened Js
  import opened PlanModel
  import opened RunModel
  import opened StepWrites
  import opened Environment
  import opened StepRules
  import opened TurnRules
  import opened Coordinator
  import RunLaws
  import KahnOrder
  import PlanGraph
  import PlanSeal
  import PlanValidator
  import KahnDepth
  import PlanBuilderLaws

  /** Each trade finds the registry the one before it left. */
  ghost predicate Linked(ts: seq<Trade>) {
    forall i, j :: 0 <= i < |ts| && 0 <= j < |ts| && j == i + 1 ==> ts[j].registry == ts[i].endRegistry
  }

  /** Trades on one coordinator, in order. */
  ghost predicate History(host: Host, ts: seq<Trade>) {
    Linked(ts) && forall i :: 0 <= i < |ts| ==> TradeOk(host, ts[i])
  }

  // ----- What a trade does to the registry -----

  /** A trade's dealings with the registry: each step at most once, by the skip rule. */
  ghost predicate Books(t: Trade) {
    && t.endRegistry == RegistryThrough(t.registry, t.plan.header.planId, t.turns)
    && SkipRules(t.registry, t.plan.header.planId, t.turns)
    && (forall i, j :: 0 <= i < j < |t.turns| ==> t.turns[i].step.id != t.turns[j].step.id)
    && (forall i :: 0 <= i < |t.turns| ==> !t.turns[i].visit.Blocked?)
  }

  lemma TradeBooks(host: Host, t: Trade)
    requires TradeOk(host, t)
    ensures Books(t)
  {
    if t.turns != [] { KahnOrder.OrderIsPermutation(Graph(t.plan.steps)); }
    forall i | 0 <= i < |t.turns| ensures t.turns[i].step.id == Order(t.plan)[i] && !t.turns[i].visit.Blocked? {
      assert TurnFits(host, t.params.sourceIsSolana, t.plan, i, t.turns[i]);
    }
  }

  lemma HistoryBooks(host: Host, ts: seq<Trade>)
    requires History(host, ts)
    ensures forall i :: 0 <= i < |ts| ==> Books(ts[i])
  {
    forall i | 0 <= i < |ts| ensures Books(ts[i]) { TradeBooks(host, ts[i]); }
  }

  /** A recorded SUCCESS survives every later trade, of whatever plan. */
  lemma SuccessPersists(host: Host, t: Trade, key: string)
    requires TradeOk(host, t) && Recorded(t.registry, key)
    ensures Recorded(t.endRegistry, key)
  {
    SuccessStays(t.registry, t.plan.header.planId, t.turns, key);
  }

  /** A step that did not complete leaves its entry alone, and one that was tried and failed, or could
      not be tried, is not recorded as SUCCESS. */
  lemma FailedNotRecorded(host: Host, t: Trade, i: nat)
    requires TradeOk(host, t) && i < |t.turns| && !Completed(t.turns[i].visit)
    ensures var key := Key(t.plan.header.planId, t.turns[i].step.id);
            && (key in t.endRegistry <==> key in t.registry)
            && (key in t.registry ==> t.endRegistry[key] == t.registry[key])
            && (t.turns[i].visit.Worked? || t.turns[i].visit.UncertainBroadcast? || t.turns[i].visit.TransactionsUnread? ==>
                  !Recorded(t.endRegistry, key))
  {
    TradeBooks(host, t);
    UntouchedEntry(t, i);
  }

  lemma UntouchedEntry(t: Trade, i: nat)
    requires Books(t) && i < |t.turns| && !Completed(t.turns[i].visit)
    ensures var key := Key(t.plan.header.planId, t.turns[i].step.id);
            && (key in t.endRegistry <==> key in t.registry)
            && (key in t.registry ==> t.endRegistry[key] == t.registry[key])
            && (t.turns[i].visit.Worked? || t.turns[i].visit.UncertainBroadcast? || t.turns[i].visit.TransactionsUnread? ==>
                  !Recorded(t.endRegistry, key))
  {
    var planId := t.plan.header.planId;
    var key := Key(planId, t.turns[i].step.id);
    forall j | 0 <= j < |t.turns| ensures !Completes(planId, t.turns, j, key) {
      if j != i { KeysDiffer(planId, t.turns[i].step.id, t.turns[j].step.id); }
    }
    EntryKept(t.registry, planId, t.turns, key);
    assert SkipRule(t.registry, key, t.turns[i]);
  }

  /** The entry a completed turn leaves. */
  lemma CompletedEntry(t: Trade, i: nat)
    requires Books(t) && i < |t.turns| && Completed(t.turns[i].visit)
    ensures var key := Key(t.plan.header.planId, t.turns[i].step.id);
            key in t.endRegistry && t.endRegistry[key] == Stored(Success, HashOf(t.turns[i].visit))
  {
    EntryOf(t.registry, t.plan.header.planId, t.turns, i);
  }

  lemma {:induction false} SuccessPersistsOn(ts: seq<Trade>, i: nat, j: nat, key: string)
    requires Linked(ts) && forall m :: 0 <= m < |ts| ==> Books(ts[m])
    requires i < j < |ts| && Recorded(ts[i].endRegistry, key)
    ensures Recorded(ts[j].registry, key)
    decreases j - i
  {
    if i + 1 < j {
      SuccessPersistsOn(ts, i, j - 1, key);
      SuccessStays(ts[j-1].registry, ts[j-1].plan.header.planId, ts[j-1].turns, key);
      assert Books(ts[j-1]);
    }
  }

  // ----- NOTHING happens again -----

  predicate HasId(steps: seq<Step>, id: string) {
    exists k :: 0 <= k < |steps| && steps[k].id == id
  }

  /** p2 has p's plan id and none but p's steps. */
  predicate SameStepIds(p: Plan, p2: Plan) {
    p.header.planId == p2.header.planId && forall k :: 0 <= k < |p2.steps| ==> HasId(p.steps, p2.steps[k].id)
  }

  lemma TurnFacts(host: Host, solana: bool, p: Plan, turns: seq<Turn>, i: nat)
    requires RunOk(host, solana, p, turns) && i < |turns|
    ensures i < |Order(p)| && turns[i].step.id == Order(p)[i] && ProceedsOk(turns[i])
    ensures HasId(p.steps, turns[i].step.id)
  {
    assert TurnFits(host, solana, p, i, turns[i]);
  }

  lemma FinishedIsRecorded(t: Trade, id: string)
    requires t.result.Finished? && ResultOk(t) && SamePlan(t.plan, t.endPlan) && HasId(t.plan.steps, id)
    ensures Recorded(t.endRegistry, Key(t.plan.header.planId, id))
  {
    var k :| 0 <= k < |t.plan.steps| && t.plan.steps[k].id == id;
    assert SameStep(t.plan.steps[k], t.endPlan.steps[k]);
  }

  /** A recorded step is not executed: its turn skips it, or stops before it is looked at. */
  predicate Untouched(v: Visit) { v.Skip? || v.LeaseRefused? || v.ReadFailed? }

  lemma RecordedUntouched(t: Trade, n: nat)
    requires Books(t) && n < |t.turns| && Recorded(t.registry, Key(t.plan.header.planId, t.turns[n].step.id))
    ensures Untouched(t.turns[n].visit)
  {
    assert SkipRule(t.registry, Key(t.plan.header.planId, t.turns[n].step.id), t.turns[n]);
  }

  lemma {:induction false} NoCalls(turns: seq<Turn>)
    requires forall n :: 0 <= n < |turns| ==> Untouched(turns[n].visit)
    ensures forall e :: e in RunLaws.Trace(turns) ==> !e.Called?
  {
    if turns != [] {
      NoCalls(turns[..|turns|-1]);
      assert WorkEvents(turns[|turns|-1].step.id, []) == [];
    }
  }

  /** Replay: once a trade of a plan has finished, no later trade of the plan's steps on this
      coordinator calls anything outside, however many trades of whatever plans lie in between. */
  lemma NothingHappensAgain(host: Host, ts: seq<Trade>, i: nat, j: nat)
    requires History(host, ts) && i < j < |ts|
    requires ts[i].result.Finished? && SameStepIds(ts[i].plan, ts[j].plan)
    ensures forall n :: 0 <= n < |ts[j].turns| ==> Untouched(ts[j].turns[n].visit)
    ensures forall e :: e in RunLaws.Trace(ts[j].turns) ==> !e.Called?
  {
    HistoryBooks(host, ts);
    forall n | 0 <= n < |ts[j].turns| ensures Untouched(ts[j].turns[n].visit) {
      StepIsRecorded(host, ts, i, j, n);
      RecordedUntouched(ts[j], n);
    }
    NoCalls(ts[j].turns);
  }

  lemma StepIsRecorded(host: Host, ts: seq<Trade>, i: nat, j: nat, n: nat)
    requires History(host, ts) && i < j < |ts| && n < |ts[j].turns|
    requires ts[i].result.Finished? && SameStepIds(ts[i].plan, ts[j].plan)
    ensures Recorded(ts[j].registry, Key(ts[j].plan.header.planId, ts[j].turns[n].step.id))
  {
    var t := ts[j];
    TurnFacts(host, t.params.sourceIsSolana, t.plan, t.turns, n);
    FinishedIsRecorded(ts[i], t.turns[n].step.id);
    HistoryBooks(host, ts);
    SuccessPersistsOn(ts, i, j, Key(t.plan.header.planId, t.turns[n].step.id));
  }

  // ----- Receipts -----

  predicate OnSide(source: bool, k: StepKind) {
    if source then SourceHashKind(k) else DestHashKind(k)
  }

  /** The last non-empty hash among the steps that carry a source (or destination) hash. */
  function LastOf(kinds: seq<StepKind>, hashes: seq<Option<string>>, source: bool): (h: Option<string>)
    requires |kinds| == |hashes|
    ensures h.Some? ==> h.value != ""
  {
    if kinds == [] then None
    else if OnSide(source, kinds[|kinds|-1]) && Truthy(hashes[|kinds|-1]) then hashes[|kinds|-1]
    else LastOf(kinds[..|kinds|-1], hashes[..|kinds|-1], source)
  }

  function Kinds(turns: seq<Turn>): (ks: seq<StepKind>)
    ensures |ks| == |turns| && forall i :: 0 <= i < |turns| ==> ks[i] == turns[i].step.kind
  {
    seq(|turns|, i requires 0 <= i < |turns| => turns[i].step.kind)
  }

  /** The hashes the turns report. */
  function Hashes(turns: seq<Turn>): (hs: seq<Option<string>>)
    ensures |hs| == |turns| && forall i :: 0 <= i < |turns| ==> hs[i] == HashOf(turns[i].visit)
  {
    seq(|turns|, i requires 0 <= i < |turns| => HashOf(turns[i].visit))
  }

  function LastHash(turns: seq<Turn>, source: bool): Option<string> { LastOf(Kinds(turns), Hashes(turns), source) }

  lemma LastHashStep(turns: seq<Turn>, source: bool)
    requires turns != []
    ensures var t := turns[|turns|-1];
            LastHash(turns, source) == if OnSide(source, t.step.kind) && Truthy(HashOf(t.visit)) then HashOf(t.visit)
                                       else LastHash(turns[..|turns|-1], source)
  {
    assert Kinds(turns)[..|turns|-1] == Kinds(turns[..|turns|-1]);
    assert Hashes(turns)[..|turns|-1] == Hashes(turns[..|turns|-1]);
  }

  lemma {:induction false} RunReports(host: Host, solana: bool, p: Plan, turns: seq<Turn>, n: nat)
    requires RunOk(host, solana, p, turns) && 0 < n <= |turns|
    requires turns[0].before.txHash == "" && turns[0].before.destTxHash == None
    requires forall k :: 0 <= k < n ==> turns[k].proceeds
    ensures turns[n-1].after.txHash == OrEmpty(LastHash(turns[..n], true))
    ensures turns[n-1].after.destTxHash == LastHash(turns[..n], false)
  {
    TurnFacts(host, solana, p, turns, n - 1);
    LastHashStep(turns[..n], true);
    LastHashStep(turns[..n], false);
    assert turns[..n][..n-1] == turns[..n-1];
    if n == 1 {
      assert turns[..0] == [];
    } else {
      RunReports(host, solana, p, turns, n - 1);
      assert turns[n-1].before == turns[n-2].after;
    }
  }

  /** What a finished trade's receipt shows: the last non-empty hash of each side. */
  lemma ReceiptShows(host: Host, t: Trade)
    requires TradeOk(host, t) && t.result.Finished?
    ensures t.result.receipt.txHash == OrEmpty(LastHash(t.turns, true))
    ensures t.result.receipt.destTxHash == LastHash(t.turns, false)
    ensures t.result.receipt.status ==
            if CrossChain(t.plan) && LastHash(t.turns, false).None? then BRIDGE_IN_FLIGHT else COMPLETED
  {
    assert t.turns[..|t.turns|] == t.turns;
    RunReports(host, t.params.sourceIsSolana, t.plan, t.turns, |t.turns|);
  }

  /** Two finished trades over the same route ends give the same receipt exactly when each side's last
      non-empty hash is the same. */
  lemma ReceiptsAgree(host: Host, a: Trade, b: Trade)
    requires TradeOk(host, a) && a.result.Finished? && TradeOk(host, b) && b.result.Finished?
    requires CrossChain(a.plan) == CrossChain(b.plan)
    ensures a.result.receipt == b.result.receipt <==>
            LastHash(a.turns, true) == LastHash(b.turns, true) && LastHash(a.turns, false) == LastHash(b.turns, false)
  {
    ReceiptShows(host, a);
    ReceiptShows(host, b);
  }

  // ----- The receipt of a replay, from what is read and stored -----

  /** p2 is the plan of a later trade: same plan id, same route ends, same steps up to run-time changes. */
  predicate SamePlanAgain(p: Plan, p2: Plan) {
    && p.header.planId == p2.header.planId
    && p.header.sourceChainId == p2.header.sourceChainId
    && p.header.destinationChainId == p2.header.destinationChainId
    && SameSteps(p.steps, p2.steps)
  }

  lemma SameIdsAgain(p: Plan, p2: Plan)
    requires SamePlanAgain(p, p2)
    ensures SameStepIds(p, p2)
  {
    forall k | 0 <= k < |p2.steps| ensures HasId(p.steps, p2.steps[k].id) {
      assert SameStep(p.steps[k], p2.steps[k]);
    }
  }

  /** What the registry holds for the turns' steps. */
  function Registered(reg: map<string, Stored>, planId: string, turns: seq<Turn>): (hs: seq<Option<string>>)
    ensures |hs| == |turns|
    ensures forall i :: 0 <= i < |turns| ==> hs[i] == RecordedHash(reg, Key(planId, turns[i].step.id))
  {
    seq(|turns|, i requires 0 <= i < |turns| => RecordedHash(reg, Key(planId, turns[i].step.id)))
  }

  /** What skips of the turns' steps show: the first non-empty of stored, registered and own hash. */
  function Shown(reg: map<string, Stored>, planId: string, turns: seq<Turn>): (hs: seq<Option<string>>)
    ensures |hs| == |turns|
    ensures forall i :: 0 <= i < |turns| && turns[i].visit.Skip? ==>
              hs[i] == ShownHash(turns[i].visit.stored, reg, Key(planId, turns[i].step.id), turns[i].step)
  {
    seq(|turns|, i requires 0 <= i < |turns| =>
      if turns[i].visit.Skip? then ShownHash(turns[i].visit.stored, reg, Key(planId, turns[i].step.id), turns[i].step) else None)
  }

  lemma FinishedRegisters(host: Host, t: Trade)
    requires TradeOk(host, t) && t.result.Finished?
    ensures Hashes(t.turns) == Registered(t.endRegistry, t.plan.header.planId, t.turns)
  {
    TradeBooks(host, t);
    forall i | 0 <= i < |t.turns| ensures Hashes(t.turns)[i] == Registered(t.endRegistry, t.plan.header.planId, t.turns)[i] {
      TurnFacts(host, t.params.sourceIsSolana, t.plan, t.turns, i);
      CompletedEntry(t, i);
    }
  }

  lemma ReplaySkips(host: Host, ts: seq<Trade>, i: nat, j: nat)
    requires History(host, ts) && i < j < |ts| && ts[i].result.Finished? && ts[j].result.Finished?
    requires SameStepIds(ts[i].plan, ts[j].plan)
    ensures forall n :: 0 <= n < |ts[j].turns| ==> ts[j].turns[n].visit.Skip?
    ensures Hashes(ts[j].turns) == Shown(ts[j].registry, ts[j].plan.header.planId, ts[j].turns)
  {
    NothingHappensAgain(host, ts, i, j);
    SkipsShow(host, ts[j]);
  }

  lemma SkipsShow(host: Host, t: Trade)
    requires TradeOk(host, t) && t.result.Finished? && forall n :: 0 <= n < |t.turns| ==> Untouched(t.turns[n].visit)
    ensures forall n :: 0 <= n < |t.turns| ==> t.turns[n].visit.Skip?
    ensures Hashes(t.turns) == Shown(t.registry, t.plan.header.planId, t.turns)
  {
    forall n | 0 <= n < |t.turns|
      ensures t.turns[n].visit.Skip? && Hashes(t.turns)[n] == Shown(t.registry, t.plan.header.planId, t.turns)[n]
    {
      TurnFacts(host, t.params.sourceIsSolana, t.plan, t.turns, n);
      assert SkipRule(t.registry, Key(t.plan.header.planId, t.turns[n].step.id), t.turns[n]);
    }
  }

  /** The last non-empty hash on a side, as a replay's reads and the registry it found show it. */
  function LastShown(t: Trade, source: bool): Option<string> {
    LastOf(Kinds(t.turns), Shown(t.registry, t.plan.header.planId, t.turns), source)
  }

  /** The last non-empty hash on a side, as a trade left it in the registry. */
  function LastRegistered(t: Trade, source: bool): Option<string> {
    LastOf(Kinds(t.turns), Registered(t.endRegistry, t.plan.header.planId, t.turns), source)
  }

  /** The receipt of a replay, exactly: it equals the first trade's if and only if, on each side, the
      last non-empty hash shown by what the replay read and found registered is the last non-empty hash
      the first trade registered. */
  lemma ReplayReceiptExactly(host: Host, ts: seq<Trade>, i: nat, j: nat)
    requires History(host, ts) && i < j < |ts| && ts[i].result.Finished? && ts[j].result.Finished?
    requires SamePlanAgain(ts[i].plan, ts[j].plan)
    ensures ts[j].result.receipt == ts[i].result.receipt <==>
            LastShown(ts[j], true) == LastRegistered(ts[i], true) && LastShown(ts[j], false) == LastRegistered(ts[i], false)
  {
    var a, b := ts[i], ts[j];
    SameIdsAgain(a.plan, b.plan);
    ReplaySkips(host, ts, i, j);
    FinishedRegisters(host, a);
    ReceiptsAgree(host, a, b);
  }

  // ----- Reads that agree -----

  /** What a later trade must read for a step registered with hash h: no stored hash or that one; and
      where h is empty and nothing is stored, no hash in the step object either. */
  predicate ReadsAgree(h: Option<string>, later: Turn) {
    later.visit.Skip? ==>
      var stored := StoredHash(later.visit.stored);
      if Truthy(stored) then stored == h else Truthy(h) || !Truthy(later.step.txHash)
  }

  /** ReadsAgree is exactly when a skip shows the registered hash. */
  lemma SkipShowsSameHash(h: Option<string>, reg: map<string, Stored>, key: string, t: Turn)
    requires t.visit.Skip? && SkipRule(reg, key, t) && OrEmpty(RecordedHash(reg, key)) == OrEmpty(h)
    ensures OrEmpty(HashOf(t.visit)) == OrEmpty(h) <==> ReadsAgree(h, t)
  {
  }

  /** Every turn of the trade that is about the key reads in agreement with h. */
  predicate TradeReadsAgree(t: Trade, key: string, h: Option<string>) {
    forall n :: 0 <= n < |t.turns| && Key(t.plan.header.planId, t.turns[n].step.id) == key ==> ReadsAgree(h, t.turns[n])
  }

  /** A trade that reads in agreement leaves a registered SUCCESS with its hash. */
  lemma HashKept(t: Trade, key: string, h: Option<string>)
    requires Books(t) && Recorded(t.registry, key) && OrEmpty(RecordedHash(t.registry, key)) == OrEmpty(h)
    requires TradeReadsAgree(t, key, h)
    ensures Recorded(t.endRegistry, key) && OrEmpty(RecordedHash(t.endRegistry, key)) == OrEmpty(h)
  {
    SuccessStays(t.registry, t.plan.header.planId, t.turns, key);
    if n :| 0 <= n < |t.turns| && Completes(t.plan.header.planId, t.turns, n, key) {
      RecordedUntouched(t, n);
      assert SkipRule(t.registry, key, t.turns[n]);
      SkipShowsSameHash(h, t.registry, key, t.turns[n]);
      CompletedEntry(t, n);
    } else {
      EntryKept(t.registry, t.plan.header.planId, t.turns, key);
    }
  }

  lemma {:induction false} HashKeptOn(ts: seq<Trade>, i: nat, j: nat, key: string, h: Option<string>)
    requires Linked(ts) && i < j < |ts| && forall m :: 0 <= m < |ts| ==> Books(ts[m])
    requires Recorded(ts[i].endRegistry, key) && OrEmpty(RecordedHash(ts[i].endRegistry, key)) == OrEmpty(h)
    requires forall m :: i < m < j ==> TradeReadsAgree(ts[m], key, h)
    ensures Recorded(ts[j].registry, key) && OrEmpty(RecordedHash(ts[j].registry, key)) == OrEmpty(h)
    decreases j - i
  {
    if i + 1 < j {
      HashKeptOn(ts, i, j - 1, key, h);
      HashKept(ts[j-1], key, h);
    }
  }

  predicate HashKind(k: StepKind) { SourceHashKind(k) || DestHashKind(k) }

  lemma {:induction false} LastOfSame(kinds: seq<StepKind>, a: seq<Option<string>>, b: seq<Option<string>>, source: bool)
    requires |kinds| == |a| == |b|
    requires forall i :: 0 <= i < |kinds| && HashKind(kinds[i]) ==> OrEmpty(a[i]) == OrEmpty(b[i])
    ensures LastOf(kinds, a, source) == LastOf(kinds, b, source)
  {
    if kinds != [] { LastOfSame(kinds[..|kinds|-1], a[..|kinds|-1], b[..|kinds|-1], source); }
  }

  lemma SameKinds(host: Host, a: Trade, b: Trade)
    requires TradeOk(host, a) && a.result.Finished? && TradeOk(host, b) && b.result.Finished?
    requires SamePlanAgain(a.plan, b.plan)
    ensures Kinds(a.turns) == Kinds(b.turns)
    ensures forall i :: 0 <= i < |a.turns| && i < |b.turns| ==> a.turns[i].step.id == b.turns[i].step.id
  {
    SameTurnsAgain(host, a.params.sourceIsSolana, b.params.sourceIsSolana, a.plan, b.plan, a.turns, b.turns);
  }

  lemma SameTurnsAgain(host: Host, solana: bool, solana2: bool, p: Plan, p2: Plan, a: seq<Turn>, b: seq<Turn>)
    requires RunOk(host, solana, p, a) && RunOk(host, solana2, p2, b) && |a| == |b|
    requires SameSteps(p.steps, p2.steps) && PlanGraph.Valid(Graph(p.steps))
    ensures Kinds(a) == Kinds(b) && forall i :: 0 <= i < |a| ==> a[i].step.id == b[i].step.id
  {
    forall i | 0 <= i < |a| ensures a[i].step.id == b[i].step.id && Kinds(a)[i] == Kinds(b)[i] {
      SameTurnAgain(host, solana, solana2, p, p2, a, b, i);
    }
  }

  lemma SameTurnAgain(host: Host, solana: bool, solana2: bool, p: Plan, p2: Plan, a: seq<Turn>, b: seq<Turn>, i: nat)
    requires RunOk(host, solana, p, a) && RunOk(host, solana2, p2, b) && i < |a| && i < |b|
    requires SameSteps(p.steps, p2.steps) && PlanGraph.Valid(Graph(p.steps))
    ensures a[i].step.id == b[i].step.id && a[i].step.kind == b[i].step.kind
  {
    SameStepsFacts(p.steps, p2.steps, SourceSwap);
    TurnFacts(host, solana, p, a, i);
    TurnFacts(host, solana2, p2, b, i);
    var k := KindOfTurn(host, solana, p, a, i);
    var m := KindOfTurn(host, solana2, p2, b, i);
    SameKindAt(p.steps, p2.steps, k, m);
  }

  lemma SameKindAt(steps: seq<Step>, steps2: seq<Step>, k: nat, m: nat)
    requires SameSteps(steps, steps2) && PlanGraph.Valid(Graph(steps))
    requires k < |steps| && m < |steps2| && steps[k].id == steps2[m].id
    ensures steps[k].kind == steps2[m].kind
  {
    assert SameStep(steps[m], steps2[m]);
    assert Graph(steps)[k].id == Graph(steps)[m].id;
  }

  lemma KindOfTurn(host: Host, solana: bool, p: Plan, turns: seq<Turn>, i: nat) returns (k: nat)
    requires RunOk(host, solana, p, turns) && i < |turns|
    ensures k < |p.steps| && p.steps[k].id == turns[i].step.id && p.steps[k].kind == turns[i].step.kind
  {
    assert TurnFits(host, solana, p, i, turns[i]);
    k :| 0 <= k < |p.steps| && SameStep(p.steps[k], turns[i].step);
  }

  lemma AgreeingTurns(host: Host, a: Trade, b: Trade)
    requires TradeOk(host, a) && a.result.Finished? && TradeOk(host, b) && b.result.Finished?
    requires CrossChain(a.plan) == CrossChain(b.plan) && Kinds(a.turns) == Kinds(b.turns)
    requires forall n :: 0 <= n < |a.turns| && HashKind(Kinds(a.turns)[n]) ==> OrEmpty(Hashes(b.turns)[n]) == OrEmpty(Hashes(a.turns)[n])
    ensures b.result.receipt == a.result.receipt
  {
    assert |a.turns| == |Kinds(a.turns)| == |b.turns|;
    LastOfSame(Kinds(a.turns), Hashes(b.turns), Hashes(a.turns), true);
    LastOfSame(Kinds(a.turns), Hashes(b.turns), Hashes(a.turns), false);
    ReceiptsAgree(host, a, b);
  }

  /** So the receipt of a replay is the first trade's whenever the trades since then, the replay
      included, read in agreement for the steps whose hashes a receipt can show. */
  lemma SameReceiptAgain(host: Host, ts: seq<Trade>, i: nat, j: nat)
    requires History(host, ts) && i < j < |ts| && ts[i].result.Finished? && ts[j].result.Finished?
    requires SamePlanAgain(ts[i].plan, ts[j].plan)
    requires forall n, m :: 0 <= n < |ts[i].turns| && i < m <= j && HashKind(ts[i].turns[n].step.kind) ==>
               TradeReadsAgree(ts[m], Key(ts[i].plan.header.planId, ts[i].turns[n].step.id), HashOf(ts[i].turns[n].visit))
    ensures ts[j].result.receipt == ts[i].result.receipt
  {
    var a, b := ts[i], ts[j];
    SameKinds(host, a, b);
    SameIdsAgain(a.plan, b.plan);
    ReplaySkips(host, ts, i, j);
    assert |a.turns| == |Kinds(a.turns)| == |b.turns|;
    forall n | 0 <= n < |a.turns| && HashKind(Kinds(a.turns)[n]) ensures OrEmpty(Hashes(b.turns)[n]) == OrEmpty(Hashes(a.turns)[n]) {
      SameHashAgain(host, ts, i, j, n);
    }
    AgreeingTurns(host, a, b);
  }

  lemma SameHashAgain(host: Host, ts: seq<Trade>, i: nat, j: nat, n: nat)
    requires History(host, ts) && i < j < |ts| && ts[i].result.Finished?
    requires n < |ts[i].turns| && n < |ts[j].turns| && ts[j].turns[n].step.id == ts[i].turns[n].step.id
    requires ts[i].plan.header.planId == ts[j].plan.header.planId && ts[j].turns[n].visit.Skip?
    requires forall m :: i < m <= j ==>
               TradeReadsAgree(ts[m], Key(ts[i].plan.header.planId, ts[i].turns[n].step.id), HashOf(ts[i].turns[n].visit))
    ensures OrEmpty(HashOf(ts[j].turns[n].visit)) == OrEmpty(HashOf(ts[i].turns[n].visit))
  {
    var a, b := ts[i], ts[j];
    var key, h := Key(a.plan.header.planId, a.turns[n].step.id), HashOf(a.turns[n].visit);
    TurnFacts(host, a.params.sourceIsSolana, a.plan, a.turns, n);
    HistoryBooks(host, ts);
    CompletedEntry(a, n);
    HashKeptOn(ts, i, j, key, h);
    assert TradeReadsAgree(b, key, h);
    assert SkipRule(b.registry, key, b.turns[n]);
    SkipShowsSameHash(h, b.registry, key, b.turns[n]);
  }

  // ----- A replay that answers differently -----

  /** A plan of one relay wait whose step object already carries a hash. */
  const WAITING_STEP := Step("wait", BridgeRelayWait, "base", None, OFF_CHAIN, [], None, None, None, None, None, None, None, None, None,
                            NotStarted, Some("0xold"), None)

  const WAITING_PLAN := Plan(
    Header("p", "r", CrossChainDirect, "polygon", "base", SAMPLE_TOKEN, SAMPLE_TOKEN, "1", "1", "1", true, None, None, None, None, None, None, None,
           None, None, None, None, None, Extras(None, None, None, None, None, None, None, None, None, None, None, None)),
    [WAITING_STEP])

  const NOT_TRACKED := Params(false, true, false, false, true, false, None)
  const NOTHING := Bound(None, false, NoDeposit, "", None)

  /** The first trade registers its order, does not wait for it, and records no hash. */
  const FIRST_TRADE := Trade(
    NOT_TRACKED, WAITING_PLAN, map[],
    [Turn(WAITING_STEP, NOTHING, Worked(None, [Did(RegisterOrder)], Some(None)), true, true, NOTHING, WAITING_STEP.(status := Success))],
    Finished(Receipt("", None, BRIDGE_IN_FLIGHT)),
    WAITING_PLAN.(steps := [WAITING_STEP.(status := Success)]), map["wait" := Success],
    map[Key("p", "wait") := Stored(Success, None)])

  /** The second trade, on the same plan object, skips the wait, and the hash comes to the surface. */
  const SECOND_TRADE := Trade(
    NOT_TRACKED, FIRST_TRADE.endPlan, FIRST_TRADE.endRegistry,
    [Turn(WAITING_STEP.(status := Success), NOTHING, Skip(None, Some("0xold")), true, true, NOTHING.(destTxHash := Some("0xold")),
      WAITING_STEP.(status := Success, txHash := Some("0xold")))],
    Finished(Receipt("", Some("0xold"), COMPLETED)),
    FIRST_TRADE.endPlan, map["wait" := Success],
    map[Key("p", "wait") := Stored(Success, Some("0xold"))])

  lemma OneStepOrder(p: Plan)
    requires |p.steps| == 1 && p.steps[0].dependencies == []
    ensures PlanGraph.Valid(Graph(p.steps)) && Order(p) == [p.steps[0].id]
  {
    KahnDepth.ChainOrder(Graph(p.steps));
    assert PlanGraph.Ids(Graph(p.steps)) == [p.steps[0].id];
  }

  lemma OneTurnRun(host: Host, p: Plan, t: Turn)
    requires |p.steps| == 1 && p.steps[0].dependencies == [] && p.steps[0].kind != BridgeDeposit
    requires t.step == p.steps[0] && TurnOk(host, false, t) && !t.visit.Blocked?
    ensures RunOk(host, false, p, [t]) && PlanGraph.Valid(Graph(p.steps))
  {
    OneStepOrder(p);
    assert SameStep(p.steps[0], t.step);
    assert TurnFits(host, false, p, 0, t);
  }

  lemma OneTurnBooks(reg: map<string, Stored>, planId: string, t: Turn)
    ensures RegistryThrough(reg, planId, [t]) == RegistryAfter(reg, Key(planId, t.step.id), t.visit)
  {
    assert [t][..0] == [];
  }

  lemma FirstTurn(host: Host)
    ensures TurnOk(host, false, FIRST_TRADE.turns[0])
  {
  }

  lemma FirstTradeOk(host: Host)
    ensures TradeOk(host, FIRST_TRADE)
  {
    FirstTurn(host);
    OneTurnRun(host, WAITING_PLAN, FIRST_TRADE.turns[0]);
    OneTurnBooks(map[], "p", FIRST_TRADE.turns[0]);
    assert TurnsOk(host, FIRST_TRADE);
  }

  lemma SecondTurn(host: Host)
    ensures TurnOk(host, false, SECOND_TRADE.turns[0])
    ensures SkipRule(SECOND_TRADE.registry, Key("p", "wait"), SECOND_TRADE.turns[0])
  {
  }

  lemma SecondTradeOk(host: Host)
    ensures TradeOk(host, SECOND_TRADE)
  {
    SecondTurn(host);
    OneTurnRun(host, SECOND_TRADE.plan, SECOND_TRADE.turns[0]);
    OneTurnBooks(SECOND_TRADE.registry, "p", SECOND_TRADE.turns[0]);
    assert TurnsOk(host, SECOND_TRADE);
  }

  lemma WaitingHeaderOk(host: Host)
    requires host.bigInt("1") == Some(1)
    ensures PlanValidator.HeaderOk(host, PlanBuilderLaws.ANY_LOOKUPS, WAITING_PLAN.header)
  {
    assert WAITING_PLAN.header.planId[0] == 'p' && WAITING_PLAN.header.routeId[0] == 'r';
  }

  lemma WaitingStepOk(host: Host, s: Step)
    requires s == WAITING_STEP || s == WAITING_STEP.(status := Success)
    ensures PlanValidator.StepOk(host, PlanBuilderLaws.ANY_LOOKUPS, s, WAITING_PLAN.header)
  {
    assert s.id[0] == 'w';
  }

  /** A plan of one relay wait is accepted when its header and its step are. */
  lemma OneWaitAccepted(host: Host, lookups: Lookups, p: Plan)
    requires |p.steps| == 1 && p.steps[0].kind == BridgeRelayWait && p.steps[0].dependencies == []
    requires PlanSeal.VerifyIntegrity(host, p, None)
    requires PlanValidator.HeaderOk(host, lookups, p.header) && PlanValidator.StepOk(host, lookups, p.steps[0], p.header)
    ensures PlanValidator.Accepted(host, lookups, p)
  {
    OneStepOrder(p);
    assert FindKind(p.steps, SourceSwap).None? && FindKind(p.steps, BridgeDeposit).None?;
  }

  lemma WaitingStart(host: Host, p: Plan)
    requires p == WAITING_PLAN || p == SECOND_TRADE.plan
    ensures FirstBound(host, p, NOT_TRACKED) == NOTHING && PlanSeal.VerifyIntegrity(host, p, None)
  {
    assert FindKind(p.steps, BridgeDeposit).None?;
  }

  /** The user trades for themselves, and every gate is open. */
  const SAMPLE_CALLER := Caller("0xuser", None, None, true, true, true)

  /** Both are trades executeTrade enters its loop for, from the state it starts in. */
  lemma WaitingPlansAccepted(host: Host, p: Plan)
    requires host.bigInt("1") == Some(1) && (p == WAITING_PLAN || p == SECOND_TRADE.plan)
    ensures MayStart(host, PlanBuilderLaws.ANY_LOOKUPS, p, SAMPLE_CALLER)
    ensures OnChains(PlanBuilderLaws.ANY_LOOKUPS, p.header, NOT_TRACKED) == NOT_TRACKED
    ensures FirstBound(host, p, NOT_TRACKED) == NOTHING
  {
    WaitingHeaderOk(host);
    WaitingStepOk(host, p.steps[0]);
    WaitingStart(host, p);
    WaitingGates(host, p.header);
    OneWaitAccepted(host, PlanBuilderLaws.ANY_LOOKUPS, p);
  }

  lemma WaitingGates(host: Host, h: Header)
    requires h == WAITING_PLAN.header
    ensures h.isExecutable && GatesOpen(host, PlanBuilderLaws.ANY_LOOKUPS, h, SAMPLE_CALLER)
    ensures OnChains(PlanBuilderLaws.ANY_LOOKUPS, h, NOT_TRACKED) == NOT_TRACKED
  {
    assert "polygon"[0] != "base"[0];
  }

  /** Two trades of one plan, both finished, with receipts that differ in hash and in status. */
  lemma ReplayChangesStatus(host: Host)
    ensures History(host, [FIRST_TRADE, SECOND_TRADE]) && SamePlanAgain(FIRST_TRADE.plan, SECOND_TRADE.plan)
    ensures FIRST_TRADE.result == Finished(Receipt("", None, BRIDGE_IN_FLIGHT))
    ensures SECOND_TRADE.result == Finished(Receipt("", Some("0xold"), COMPLETED))
  {
    FirstTradeOk(host);
    SecondTradeOk(host);
  }

  /** A run whose only step could not be read and whose lease could not be given back. */
  lemma LeaseCanStay(host: Host)
    ensures var t := Turn(WAITING_STEP, NOTHING, ReadFailed, false, false, NOTHING, WAITING_STEP);
            RunOk(host, false, WAITING_PLAN, [t]) && RunLaws.Held(RunLaws.Trace([t])) == {"wait"}
  {
    var t := Turn(WAITING_STEP, NOTHING, ReadFailed, false, false, NOTHING, WAITING_STEP);
    OneTurnRun(host, WAITING_PLAN, t);
    RunLaws.LeasesAtEnd([t]);
  }

  // ----- Histories come from the coordinator -----

  /** A call of executeTrade. */
  datatype Job = Job(plan: ExecutionPlan, caller: Caller, params: Params, world: World)

  ghost function Objects(jobs: seq<Job>): (r: set<object>)
    ensures forall j :: j in jobs ==> j.plan in r && forall s :: s in j.plan.steps ==> s in r
  {
    (set j | j in jobs :: j.plan as object) + (set j, s | j in jobs && s in j.plan.steps :: s as object)
  }

  function AllTraces(ts: seq<Trade>): seq<LeaseEvent> {
    if ts == [] then [] else AllTraces(ts[..|ts|-1]) + RunLaws.Trace(ts[|ts|-1].turns)
  }

  lemma ExtendLinks(ts: seq<Trade>, t: Trade)
    requires Linked(ts) && (ts != [] ==> t.registry == ts[|ts|-1].endRegistry)
    ensures Linked(ts + [t])
  {
  }

  lemma ExtendHistory(host: Host, ts: seq<Trade>, t: Trade)
    requires History(host, ts) && TradeOk(host, t) && (ts != [] ==> t.registry == ts[|ts|-1].endRegistry)
    ensures History(host, ts + [t])
  {
    ExtendLinks(ts, t);
    forall i | 0 <= i < |ts + [t]| ensures TradeOk(host, (ts + [t])[i]) {
      assert (ts + [t])[i] == if i < |ts| then ts[i] else t;
    }
  }

  lemma ExtendTraces(before: seq<LeaseEvent>, ts: seq<Trade>, t: Trade)
    ensures before + AllTraces(ts) + RunLaws.Trace(t.turns) == before + AllTraces(ts + [t])
  {
    assert (ts + [t])[..|ts + [t]|-1] == ts;
  }

  /** The trades lead from registry first to registry now. */
  ghost predicate Leads(ts: seq<Trade>, first: map<string, Stored>, now: map<string, Stored>) {
    if ts == [] then now == first else ts[0].registry == first && ts[|ts|-1].endRegistry == now
  }

  lemma ExtendLead(ts: seq<Trade>, t: Trade, first: map<string, Stored>)
    requires Leads(ts, first, t.registry)
    ensures Leads(ts + [t], first, t.endRegistry) && (ts != [] ==> t.registry == ts[|ts|-1].endRegistry)
  {
  }

  /** What one job came to, in its own world. */
  ghost predicate JobDone(host: Host, lookups: Lookups, job: Job, t: Trade) {
    FollowsWorld(host, job.world, t) && t.params == OnChains(lookups, t.plan.header, job.params)
  }

  method ExecuteNext(c: ExecutionCoordinator, host: Host, lookups: Lookups, job: Job, ghost ts: seq<Trade>,
                     ghost first: map<string, Stored>, ghost trace0: seq<LeaseEvent>) returns (ghost all: seq<Trade>)
    requires History(host, ts) && Leads(ts, first, c.registry) && c.trace == trace0 + AllTraces(ts)
    modifies c, job.plan, job.plan.steps
    ensures |all| == |ts| + 1 && all[..|ts|] == ts && JobDone(host, lookups, job, all[|ts|])
    ensures History(host, all) && Leads(all, first, c.registry) && c.trace == trace0 + AllTraces(all)
  {
    var r;
    ghost var t;
    r, t := c.ExecuteTrade(host, lookups, job.plan, job.caller, job.params, job.world);
    ExtendLead(ts, t, first);
    ExtendHistory(host, ts, t);
    ExtendTraces(trace0, ts, t);
    all := ts + [t];
  }

  /** Calls made one after another on a coordinator form a history, whatever plans they share. */
  method ExecuteAll(c: ExecutionCoordinator, host: Host, lookups: Lookups, jobs: seq<Job>) returns (ghost ts: seq<Trade>)
    modifies c, Objects(jobs)
    ensures |ts| == |jobs| && History(host, ts) && Leads(ts, old(c.registry), c.registry)
    ensures forall i :: 0 <= i < |jobs| ==> JobDone(host, lookups, jobs[i], ts[i])
    ensures c.trace == old(c.trace) + AllTraces(ts)
  {
    ts := [];
    for i := 0 to |jobs|
      invariant |ts| == i && History(host, ts) && Leads(ts, old(c.registry), c.registry)
      invariant forall j :: 0 <= j < i ==> JobDone(host, lookups, jobs[j], ts[j])
      invariant c.trace == old(c.trace) + AllTraces(ts)
    {
      ghost var before := ts;
      ts := ExecuteNext(c, host, lookups, jobs[i], ts, old(c.registry), old(c.trace));
      forall j | 0 <= j <= i ensures JobDone(host, lookups, jobs[j], ts[j]) {
        if j < i { assert ts[..i][j] == ts[j]; }
      }
    }
  }
}
