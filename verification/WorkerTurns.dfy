/** The moves of Workers are what the coordinator does: every iteration of its step loop is a stretch of them. */
module WorkerTurns {
  import opened Js
  import opened PlanModel
  import opened Environment
  import opened StepRules
  import R = RunModel
  import W = Workers

  // ----- How an executed step ends -----

  /** A result means SUCCESS; without one the step keeps its hash and is FAILED or as it was. */
  predicate EndsWell(d: Deed) {
    && (d.result.Some? ==> d.ended.status == Success)
    && (d.result.None? ==> d.ended.txHash == d.step.txHash && (d.ended.status == Failed || d.ended.status == d.step.status))
  }

  lemma HowItEnds(host: Host, pr: Params, a: StepAnswers, d: Deed)
    requires DoneBy(host, pr, a, d)
    ensures EndsWell(d)
  {
  }

  // ----- The moves of a turn -----

  /** The calls in a step's work, as moves. */
  function Issues(work: seq<R.Work>): seq<W.Action> {
    if work == [] then [] else (if work[0].Did? then [W.Issue] else []) + Issues(work[1..])
  }

  /** What a worker does between the skip test and the write. */
  function Middle(t: R.Turn): seq<W.Action> {
    match t.visit
    case Worked(_, work, result) =>
      Issues(work) + [if result.Some? then W.Succeed(result.value, t.ended.txHash) else W.Fail(t.ended.status == Failed)]
    case TransactionsUnread(_) => [W.Refuse]
    case UncertainBroadcast(_) => [W.Refuse]
    case _ => []
  }

  function MovesOf(t: R.Turn): seq<W.Action> {
    if t.visit.LeaseRefused? then []
    else [W.Lease(t.step.id), W.Look] + Middle(t) + [W.Write, W.Release(!t.released)]
  }

  /** Where a worker's moves lead, if each may be taken. */
  function After(policy: W.Policy, world: Option<W.World>, w: nat, actions: seq<W.Action>): Option<W.World>
    decreases actions
  {
    if actions == [] || world.None? then world
    else After(policy, if W.Enabled(world.value, w, actions[0]) then Some(W.Step(policy, world.value, w, actions[0])) else None, w, actions[1..])
  }

  lemma {:induction false} AfterBoth(policy: W.Policy, world: Option<W.World>, w: nat, a: seq<W.Action>, b: seq<W.Action>)
    ensures After(policy, world, w, a + b) == After(policy, After(policy, world, w, a), w, b)
    decreases a
  {
    if a == [] || world.None? {
      assert a == [] ==> a + b == b;
    } else {
      assert (a + b)[1..] == a[1..] + b;
      AfterBoth(policy, if W.Enabled(world.value, w, a[0]) then Some(W.Step(policy, world.value, w, a[0])) else None, w, a[1..], b);
    }
  }

  lemma OneMove(policy: W.Policy, world: W.World, w: nat, action: W.Action)
    requires W.Enabled(world, w, action)
    ensures After(policy, Some(world), w, [action]) == Some(W.Step(policy, world, w, action))
  {
    assert [action][1..] == [];
  }

  // ----- A worker and the world, as the coordinator's answers see them -----

  function Seen(m: map<string, W.Record>, s: string): Option<R.Stored> {
    if s in m then Some(R.Stored(m[s].status, m[s].hash)) else None
  }

  /** Worker w is between steps, has the turn's step as the turn found it, and is answered as the world stands. */
  predicate Stands(world: W.World, w: nat, a: StepAnswers, entry: Option<R.Stored>, step: Step) {
    && w in world.workers && world.workers[w].phase == W.Resting
    && step.id in world.workers[w].steps
    && Seen(world.workers[w].steps, step.id) == Some(R.Stored(step.status, step.txHash))
    && entry == Seen(world.workers[w].registry, step.id)
    && (a.lease == Returned(true) ==> step.id in world.holder ==> world.holder[step.id] == world.workers[w].id)
    && a.record == Returned(Seen(world.records, step.id))
  }

  /** What a turn adds to the log: its calls, and its completion if it was executed to success. */
  function LogOf(w: nat, t: R.Turn): seq<W.Event> {
    match t.visit
    case Worked(_, work, result) => IssuedLog(w, t.step.id, work) + (if result.Some? then [W.Completed(w, t.step.id)] else [])
    case _ => []
  }

  function IssuedLog(w: nat, s: string, work: seq<R.Work>): seq<W.Event> {
    if work == [] then [] else (if work[0].Did? then [W.Issued(w, s)] else []) + IssuedLog(w, s, work[1..])
  }

  /** What the turn's moves have come to just before the write. */
  predicate BeforeWrite(world: W.World, now: W.World, w: nat, t: R.Turn) {
    var s := t.step.id;
    && w in world.workers && w in now.workers && now.records == world.records && now.log == world.log + LogOf(w, t) && now.holder == world.holder[s := now.workers[w].id]
    && now.workers[w].phase == W.Closing(s) && now.workers[w].id == world.workers[w].id
    && s in now.workers[w].steps && Seen(now.workers[w].steps, s) == Some(R.Stored(t.ended.status, t.ended.txHash))
    && Seen(now.workers[w].registry, s) ==
         (if R.Completed(t.visit) then Some(R.Stored(Success, R.HashOf(t.visit))) else Seen(world.workers[w].registry, s))
    && (forall v :: v in world.workers && v != w ==> v in now.workers && now.workers[v] == world.workers[v])
  }

  lemma {:induction false} IssuesOnly(policy: W.Policy, world: W.World, w: nat, work: seq<R.Work>) returns (now: W.World)
    requires w in world.workers && world.workers[w].phase.Executing? && world.workers[w].phase.step in world.workers[w].steps
    ensures After(policy, Some(world), w, Issues(work)) == Some(now)
    ensures now == world.(log := world.log + IssuedLog(w, world.workers[w].phase.step, work))
    decreases |work|
  {
    now := world;
    if work == [] {
      assert world.log + [] == world.log;
    } else {
      if work[0].Did? {
        var next := W.Step(policy, world, w, W.Issue);
        OneMove(policy, world, w, W.Issue);
        AfterBoth(policy, Some(world), w, [W.Issue], Issues(work[1..]));
        now := IssuesOnly(policy, next, w, work[1..]);
        var s := world.workers[w].phase.step;
        assert world.log + [W.Issued(w, s)] + IssuedLog(w, s, work[1..]) == world.log + ([W.Issued(w, s)] + IssuedLog(w, s, work[1..]));
      } else {
        assert Issues(work) == Issues(work[1..]);
        assert IssuedLog(w, world.workers[w].phase.step, work) == IssuedLog(w, world.workers[w].phase.step, work[1..]);
        now := IssuesOnly(policy, world, w, work[1..]);
      }
    }
  }

  /** Lease and skip test. */
  lemma Looked(policy: W.Policy, world: W.World, w: nat, a: StepAnswers, entry: Option<R.Stored>, t: R.Turn) returns (now: W.World)
    requires Stands(world, w, a, entry, t.step) && a.lease == Returned(true)
    ensures After(policy, Some(world), w, [W.Lease(t.step.id), W.Look]) == Some(now)
    ensures if KnownFinished(a.record.value, entry, t.step)
            then SkippedBy(a.record.value, entry, t) ==> BeforeWrite(world, now, w, t)
            else now == W.Update(world.(holder := world.holder[t.step.id := world.workers[w].id]), w,
                                 world.workers[w].(phase := W.Executing(t.step.id)))
  {
    var s := t.step.id;
    var leased := W.Step(policy, world, w, W.Lease(s));
    OneMove(policy, world, w, W.Lease(s));
    OneMove(policy, leased, w, W.Look);
    AfterBoth(policy, Some(world), w, [W.Lease(s)], [W.Look]);
    assert [W.Lease(s)] + [W.Look] == [W.Lease(s), W.Look];
    now := W.Step(policy, leased, w, W.Look);
  }

  /** From the skip test of an unfinished step to the write. */
  lemma Worked(policy: W.Policy, world: W.World, w: nat, t: R.Turn, before: W.World) returns (now: W.World)
    requires w in before.workers && t.step.id in before.workers[w].steps
    requires Seen(before.workers[w].steps, t.step.id) == Some(R.Stored(t.step.status, t.step.txHash))
    requires world == W.Update(before.(holder := before.holder[t.step.id := before.workers[w].id]), w,
                               before.workers[w].(phase := W.Executing(t.step.id)))
    requires t.visit.Worked? && EndsWell(DeedOf(t))
    ensures After(policy, Some(world), w, Middle(t)) == Some(now) && BeforeWrite(before, now, w, t)
  {
    var issued := IssuesOnly(policy, world, w, t.visit.work);
    var last := if t.visit.result.Some? then W.Succeed(t.visit.result.value, t.ended.txHash) else W.Fail(t.ended.status == Failed);
    OneMove(policy, issued, w, last);
    AfterBoth(policy, Some(world), w, Issues(t.visit.work), [last]);
    now := W.Step(policy, issued, w, last);
  }

  lemma Refused(policy: W.Policy, world: W.World, w: nat, t: R.Turn, before: W.World) returns (now: W.World)
    requires w in before.workers && t.step.id in before.workers[w].steps
    requires Seen(before.workers[w].steps, t.step.id) == Some(R.Stored(t.step.status, t.step.txHash))
    requires world == W.Update(before.(holder := before.holder[t.step.id := before.workers[w].id]), w,
                               before.workers[w].(phase := W.Executing(t.step.id)))
    requires (t.visit.TransactionsUnread? || t.visit.UncertainBroadcast?) && t.ended == t.step
    ensures After(policy, Some(world), w, Middle(t)) == Some(now) && BeforeWrite(before, now, w, t)
  {
    OneMove(policy, world, w, W.Refuse);
    now := W.Step(policy, world, w, W.Refuse);
  }

  /** Where a whole turn leads: the step's record takes its new status and hash if the repository takes them,
      the registry has the turn's success, the worker is between steps again, and its lease is gone exactly
      if it could be released. */
  ghost predicate AfterTurn(policy: W.Policy, world: W.World, now: W.World, w: nat, t: R.Turn) {
    var s := t.step.id;
    && w in world.workers && w in now.workers && now.workers[w].phase == W.Resting && now.log == world.log + LogOf(w, t)
    && Seen(now.workers[w].steps, s) == Some(R.Stored(t.ended.status, t.ended.txHash))
    && Seen(now.workers[w].registry, s) ==
         (if R.Completed(t.visit) then Some(R.Stored(Success, R.HashOf(t.visit))) else Seen(world.workers[w].registry, s))
    && Seen(now.records, s) ==
         (if s in world.records && W.Accepts(policy, world.records[s].status, t.ended.status)
          then Some(R.Stored(t.ended.status, t.ended.txHash)) else Seen(world.records, s))
    && (s in now.holder <==> !t.released)
    && (forall r :: r != s ==> Seen(now.records, r) == Seen(world.records, r))
    && (forall v :: v in world.workers && v != w ==> v in now.workers && now.workers[v] == world.workers[v])
  }

  lemma Closed(policy: W.Policy, world: W.World, mid: W.World, w: nat, t: R.Turn) returns (now: W.World)
    requires w in world.workers && BeforeWrite(world, mid, w, t)
    ensures After(policy, Some(mid), w, [W.Write, W.Release(!t.released)]) == Some(now) && AfterTurn(policy, world, now, w, t)
  {
    var written := W.Step(policy, mid, w, W.Write);
    OneMove(policy, mid, w, W.Write);
    OneMove(policy, written, w, W.Release(!t.released));
    AfterBoth(policy, Some(mid), w, [W.Write], [W.Release(!t.released)]);
    assert [W.Write] + [W.Release(!t.released)] == [W.Write, W.Release(!t.released)];
    now := W.Step(policy, written, w, W.Release(!t.released));
  }

  /** From the skip test to the write, whatever the turn is. */
  lemma InBetween(host: Host, pr: Params, policy: W.Policy, world: W.World, w: nat, a: StepAnswers, entry: Option<R.Stored>, t: R.Turn,
                  looked: W.World) returns (mid: W.World)
    requires Stands(world, w, a, entry, t.step) && VisitedBy(DoneRule(host, pr), a, entry, t)
    requires if KnownFinished(a.record.value, entry, t.step) then BeforeWrite(world, looked, w, t)
             else looked == W.Update(world.(holder := world.holder[t.step.id := world.workers[w].id]), w,
                                     world.workers[w].(phase := W.Executing(t.step.id)))
    ensures After(policy, Some(looked), w, Middle(t)) == Some(mid) && BeforeWrite(world, mid, w, t)
  {
    mid := looked;
    if KnownFinished(a.record.value, entry, t.step) {
      assert Middle(t) == [];
    } else if t.visit.Worked? {
      RuleGives(host, pr, a, DeedOf(t));
      HowItEnds(host, pr, a, DeedOf(t));
      mid := Worked(policy, looked, w, t, world);
    } else {
      mid := Refused(policy, looked, w, t, world);
    }
  }

  lemma LeasedVisit(rule: Rule, a: StepAnswers, entry: Option<R.Stored>, t: R.Turn)
    requires AnsweredBy(rule, a, entry, t) && a.lease == Returned(true) && a.record.Returned?
    ensures VisitedBy(rule, a, entry, t) && !t.visit.LeaseRefused?
    ensures KnownFinished(a.record.value, entry, t.step) ==> SkippedBy(a.record.value, entry, t)
  {
  }

  /** Every iteration of the coordinator that takes its lease and reads its record, answered as the world
      stands, is a stretch of one worker's moves to the world that the iteration leaves. */
  lemma TurnIsMoves(host: Host, pr: Params, policy: W.Policy, world: W.World, w: nat, a: StepAnswers, entry: Option<R.Stored>, t: R.Turn)
    returns (now: W.World)
    requires Stands(world, w, a, entry, t.step) && a.lease == Returned(true)
    requires AnsweredBy(DoneRule(host, pr), a, entry, t)
    ensures After(policy, Some(world), w, MovesOf(t)) == Some(now) && AfterTurn(policy, world, now, w, t)
  {
    LeasedVisit(DoneRule(host, pr), a, entry, t);
    var looked := Looked(policy, world, w, a, entry, t);
    var mid := InBetween(host, pr, policy, world, w, a, entry, t, looked);
    now := Closed(policy, world, mid, w, t);
    var first, last := [W.Lease(t.step.id), W.Look], [W.Write, W.Release(!t.released)];
    AfterBoth(policy, Some(world), w, first, Middle(t) + last);
    AfterBoth(policy, Some(looked), w, Middle(t), last);
    assert first + Middle(t) + last == first + (Middle(t) + last);
  }
}
