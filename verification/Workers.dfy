/** Many workers on one plan: coordinators that share nothing but the repository's step records and
    leases. Every worker runs the loop of executeTrade on its own plan object; a behaviour interleaves
    their reads, calls and writes in any order. */
module Workers {
  import opened Js
  import opened PlanModel
  import RunModel

  /** A persisted step record; a worker's own step object and registry entry have the same shape. */
  datatype Record = Record(status: StepStatus, hash: Option<string>, amount: string)

  /** Where a worker stands: between steps, or at a stage of the step whose lease it holds. */
  datatype Phase =
    | Resting
    | Leased(step: string)      // the lease is held, nothing read yet
    | Executing(step: string)   // past the skip test
    | Closing(step: string)     // in the finally block, about to write
    | Written(step: string)     // about to release

  /** One run at a time of a coordinator; `id` is the worker id its leases are taken under. */
  datatype Worker = Worker(id: string, phase: Phase, steps: map<string, Record>, registry: map<string, Record>)

  datatype Event = Issued(worker: nat, step: string) | Completed(worker: nat, step: string)

  datatype World = World(
    records: map<string, Record>,
    holder: map<string, string>,    // unexpired leases, by worker id
    workers: map<nat, Worker>,
    log: seq<Event>)

  /** The in-memory repository checks status transitions; a repository without such a check takes any. */
  datatype Policy = Lenient | Strict

  predicate Terminal(s: StepStatus) { s in {Success, Failed, Skipped, Error} }

  /** validateStepStatusTransition does not throw. */
  predicate Accepts(policy: Policy, from: StepStatus, to: StepStatus) {
    policy == Lenient || from == to || (!Terminal(from) && to in Followers(from))
  }

  /** VALID_STEP_STATUS_TRANSITIONS. */
  function Followers(from: StepStatus): set<StepStatus> {
    match from
    case NotStarted | Idle => {Pending, Active, Simulating, Signing, Submitted, Confirming, Success, Skipped, Failed, Error}
    case Pending => {Active, Simulating, Signing, Submitted, Confirming, Success, Skipped, Failed, Error}
    case Active => {Simulating, Signing, Submitted, Confirming, Success, Skipped, Failed, Error}
    case Simulating => {Active, Signing, Submitted, Confirming, Success, Failed, Skipped, Error}
    case Signing => {Active, Submitted, Confirming, Success, Failed, Skipped, Error}
    case Submitted => {Confirming, Success, Failed, Error}
    case Confirming => {Success, Failed, Error}
    case Success | Failed | Skipped | Error => {}
  }

  /** How far a step has come. */
  function Stage(s: StepStatus): nat {
    match s
    case NotStarted | Idle => 0
    case Pending => 1
    case Active => 2
    case Simulating => 3
    case Signing => 4
    case Submitted => 5
    case Confirming => 6
    case Success | Failed | Skipped | Error => 7
  }

  /** A step goes forward only, any distance, except back to ACTIVE before it is submitted; and once it is
      submitted it is no longer skipped. */
  lemma FollowersExactly(from: StepStatus, to: StepStatus)
    ensures to in Followers(from) <==>
            || (Stage(from) < Stage(to) && (to == Skipped ==> Stage(from) < Stage(Submitted)))
            || (to == Active && (from == Simulating || from == Signing))
  {
  }

  datatype Action =
    | Start(steps: map<string, Record>, restarted: bool)  // executeTrade on a plan object; a restart empties the registry
    | Lease(step: string)
    | Look                           // getPlanStep and the skip test
    | Refuse                         // an uncertain broadcast, or a failed read of transactions
    | Issue                          // an adapter call, approval or quote
    | Succeed(hash: Option<string>, stepHash: Option<string>)
    | Fail(failed: bool)             // the step throws, marked FAILED or left as it was
    | Write
    | Release(thrown: bool)         // releaseLease; a throw leaves the lease behind
    | Redirect(step: string, amount: string)  // another step's refresh rewrites a deposit's call, under no lease of it

  predicate SuccessIn(m: map<string, Record>, s: string) {
    s in m && m[s].status == Success
  }

  function HashIn(m: map<string, Record>, s: string): Option<string> {
    if s in m then m[s].hash else None
  }

  function Update(a: World, w: nat, me: Worker): World { a.(workers := a.workers[w := me]) }

  /** Worker w may take the action: a step's stages follow one another, under its lease. */
  predicate Enabled(a: World, w: nat, action: Action) {
    w in a.workers &&
    var me := a.workers[w];
    (me.phase.Resting? || me.phase.step in me.steps) &&
    match action
    case Start(_, _) => me.phase.Resting?
    case Lease(s) => me.phase.Resting? && s in me.steps && (s in a.holder ==> a.holder[s] == me.id)
    case Look => me.phase.Leased?
    case Refuse | Issue | Succeed(_, _) | Fail(_) => me.phase.Executing?
    case Write => me.phase.Closing?
    case Release(_) => me.phase.Written?
    case Redirect(s, _) => s in a.records
  }

  /** updatePlanStep with status and hash; a missing record or a rejected transition throws, and the
      coordinator ignores it. */
  function WriteRecord(policy: Policy, records: map<string, Record>, s: string, mine: Record): map<string, Record> {
    if s in records && Accepts(policy, records[s].status, mine.status)
    then records[s := records[s].(status := mine.status, hash := mine.hash)]
    else records
  }

  function Finish(me: Worker, s: string, r: Record): Worker {
    me.(phase := Closing(s), steps := me.steps[s := r])
  }

  /** The world after the action. */
  function Step(policy: Policy, a: World, w: nat, action: Action): World
    requires Enabled(a, w, action)
  {
    var me := a.workers[w];
    match action
    case Start(steps, restarted) => Update(a, w, me.(steps := steps, registry := if restarted then map[] else me.registry))
    case Lease(s) => Update(a.(holder := a.holder[s := me.id]), w, me.(phase := Leased(s)))
    case Look =>
      var s := me.phase.step;
      if SuccessIn(a.records, s) || SuccessIn(me.registry, s) || SuccessIn(me.steps, s) then
        var done := me.steps[s].(status := Success, hash := RunModel.SkipHash(HashIn(a.records, s), HashIn(me.registry, s), HashIn(me.steps, s)));
        Update(a, w, Finish(me, s, done).(registry := me.registry[s := done]))
      else Update(a, w, me.(phase := Executing(s)))
    case Refuse => Update(a, w, me.(phase := Closing(me.phase.step)))
    case Issue => a.(log := a.log + [Issued(w, me.phase.step)])
    case Succeed(hash, stepHash) =>
      var s := me.phase.step;
      var done := me.steps[s].(status := Success, hash := stepHash);
      Update(a.(log := a.log + [Completed(w, s)]), w, Finish(me, s, done).(registry := me.registry[s := done.(hash := hash)]))
    case Fail(failed) =>
      var s := me.phase.step;
      Update(a, w, Finish(me, s, if failed then me.steps[s].(status := Failed) else me.steps[s]))
    case Write =>
      var s := me.phase.step;
      Update(a.(records := WriteRecord(policy, a.records, s, me.steps[s])), w, me.(phase := Written(s)))
    case Release(thrown) =>
      var s := me.phase.step;
      Update(a.(holder := if !thrown && s in a.holder && a.holder[s] == me.id then a.holder - {s} else a.holder), w, me.(phase := Resting))
    case Redirect(s, amount) => a.(records := a.records[s := a.records[s].(amount := amount)])
  }

  /** Different workers have different ids. */
  predicate DistinctIds(a: World) {
    forall v, w :: v in a.workers && w in a.workers && v != w ==> a.workers[v].id != a.workers[w].id
  }

  /** Nothing done yet; leases of earlier days may be about. */
  predicate Initial(a: World) {
    a.log == [] && forall w :: w in a.workers ==> a.workers[w].phase == Resting && a.workers[w].registry == map[]
  }

  datatype Move = Move(worker: nat, action: Action)

  /** A finite stretch: the worlds passed through and the moves between them. */
  ghost predicate Runs(policy: Policy, worlds: seq<World>, moves: seq<Move>) {
    && |worlds| == |moves| + 1
    && forall i {:trigger moves[i]} :: 0 <= i < |moves| ==>
         Enabled(worlds[i], moves[i].worker, moves[i].action)
         && worlds[i + 1] == Step(policy, worlds[i], moves[i].worker, moves[i].action)
  }

  /** A behaviour of workers that run under ids of their own. */
  ghost predicate Behaviour(policy: Policy, worlds: seq<World>, moves: seq<Move>) {
    Runs(policy, worlds, moves) && Initial(worlds[0]) && DistinctIds(worlds[0])
  }

  // ----- What every reachable world keeps -----

  /** Leases are exclusive: a busy worker's step is leased under its id, which is nobody else's. */
  predicate LeasesOk(a: World) {
    && DistinctIds(a)
    && (forall w :: w in a.workers && !a.workers[w].phase.Resting? ==>
          a.workers[w].phase.step in a.holder && a.holder[a.workers[w].phase.step] == a.workers[w].id)
  }

  predicate KeepsHash(before: Option<string>, after: Option<string>) { Truthy(before) ==> after == before }

  /** What a busy worker knows of its step's record. */
  predicate BusyOk(a: World, me: Worker) {
    match me.phase
    case Executing(s) => !SuccessIn(a.records, s)
    case Closing(s) => SuccessIn(a.records, s) ==> SuccessIn(me.steps, s) && KeepsHash(a.records[s].hash, me.steps[s].hash)
    case _ => true
  }

  predicate Inv(a: World) {
    LeasesOk(a) && forall w :: w in a.workers ==> BusyOk(a, a.workers[w])
  }

  /** A persisted SUCCESS stays, and so does its hash unless it is empty. */
  predicate SuccessStays(a: map<string, Record>, b: map<string, Record>, s: string) {
    SuccessIn(a, s) ==> SuccessIn(b, s) && KeepsHash(a[s].hash, b[s].hash)
  }

  lemma StepKeepsLeases(policy: Policy, a: World, w: nat, action: Action)
    requires LeasesOk(a) && Enabled(a, w, action)
    ensures LeasesOk(Step(policy, a, w, action))
  {
    var b := Step(policy, a, w, action);
    SameIds(policy, a, w, action);
    forall v | v in b.workers && !b.workers[v].phase.Resting?
      ensures b.workers[v].phase.step in b.holder && b.holder[b.workers[v].phase.step] == b.workers[v].id
    {
      assert v != w ==> a.workers[v].id != a.workers[w].id && b.workers[v] == a.workers[v];
    }
  }

  /** A move changes its own worker only, and never a worker's id. */
  lemma SameIds(policy: Policy, a: World, w: nat, action: Action)
    requires Enabled(a, w, action)
    ensures var b := Step(policy, a, w, action);
            b.workers == a.workers[w := b.workers[w]] && b.workers[w].id == a.workers[w].id
  {
    if action.Issue? || action.Redirect? { assert a.workers == a.workers[w := a.workers[w]]; }
  }

  lemma StepKeepsSuccess(policy: Policy, a: World, w: nat, action: Action, s: string)
    requires Enabled(a, w, action) && BusyOk(a, a.workers[w])
    ensures SuccessStays(a.records, Step(policy, a, w, action).records, s)
  {
  }

  lemma OwnBusy(policy: Policy, a: World, w: nat, action: Action)
    requires Enabled(a, w, action) && BusyOk(a, a.workers[w])
    ensures BusyOk(Step(policy, a, w, action), Step(policy, a, w, action).workers[w])
  {
  }

  /** One move by one worker leaves the others' business alone: only its own step's record may change. */
  lemma OthersBusy(policy: Policy, a: World, w: nat, action: Action, v: nat)
    requires LeasesOk(a) && Enabled(a, w, action) && v in a.workers && v != w && BusyOk(a, a.workers[v])
    ensures BusyOk(Step(policy, a, w, action), a.workers[v])
  {
  }

  lemma StepKeepsInv(policy: Policy, a: World, w: nat, action: Action)
    requires Inv(a) && Enabled(a, w, action)
    ensures Inv(Step(policy, a, w, action))
    ensures forall s :: SuccessStays(a.records, Step(policy, a, w, action).records, s)
  {
    var b := Step(policy, a, w, action);
    assert BusyOk(a, a.workers[w]);
    StepKeepsLeases(policy, a, w, action);
    forall v | v in b.workers ensures BusyOk(b, b.workers[v]) {
      if v == w { OwnBusy(policy, a, w, action); } else { OthersBusy(policy, a, w, action, v); }
    }
    forall s ensures SuccessStays(a.records, b.records, s) { StepKeepsSuccess(policy, a, w, action, s); }
  }

  // ----- A step is executed to SUCCESS at most once -----

  predicate CompletedIn(log: seq<Event>, s: string) {
    exists i :: 0 <= i < |log| && log[i].Completed? && log[i].step == s
  }

  /** After step s is completed, nothing more is issued or completed for it. */
  predicate Once(log: seq<Event>, s: string) {
    forall i, j :: 0 <= i < j < |log| && log[i].Completed? && log[i].step == s ==> log[j].step != s
  }

  /** The repository would take a SUCCESS of step s. */
  predicate Takes(policy: Policy, a: World, s: string) {
    s in a.records && Accepts(policy, a.records[s].status, Success)
  }

  /** A worker about to write the SUCCESS of step s. */
  predicate ClosesSuccess(me: Worker, s: string) { me.phase == Closing(s) && SuccessIn(me.steps, s) }

  /** A completed step is SUCCESS in the repository, or a worker is about to write that, and it will be taken. */
  predicate DoneOk(policy: Policy, a: World, s: string) {
    CompletedIn(a.log, s) ==>
      SuccessIn(a.records, s) || (Takes(policy, a, s) && exists w :: w in a.workers && ClosesSuccess(a.workers[w], s))
  }

  /** The move is a success of step s. */
  predicate Succeeds(a: World, m: Move, s: string) {
    Enabled(a, m.worker, m.action) && m.action.Succeed? && a.workers[m.worker].phase.step == s
  }

  lemma StepKeepsOnce(policy: Policy, a: World, m: Move, s: string)
    requires Inv(a) && Enabled(a, m.worker, m.action) && DoneOk(policy, a, s) && Once(a.log, s)
    requires Succeeds(a, m, s) ==> Takes(policy, a, s)
    ensures DoneOk(policy, Step(policy, a, m.worker, m.action), s) && Once(Step(policy, a, m.worker, m.action).log, s)
  {
    var b := Step(policy, a, m.worker, m.action);
    assert BusyOk(a, a.workers[m.worker]);
    StepKeepsSuccess(policy, a, m.worker, m.action, s);
    if Succeeds(a, m, s) {
      assert ClosesSuccess(b.workers[m.worker], s);
    } else if CompletedIn(a.log, s) && !SuccessIn(a.records, s) {
      var w :| w in a.workers && ClosesSuccess(a.workers[w], s);
      if w != m.worker {
        assert b.workers[w] == a.workers[w];
        ElsewhereBusy(policy, a, m, w, s);
      }
    }
  }

  /** While worker w is closing step s no other worker touches its record's status. */
  lemma ElsewhereBusy(policy: Policy, a: World, m: Move, w: nat, s: string)
    requires LeasesOk(a) && Enabled(a, m.worker, m.action) && w in a.workers && w != m.worker && a.workers[w].phase == Closing(s)
    ensures !Succeeds(a, m, s) && (m.action.Issue? ==> a.workers[m.worker].phase.step != s)
    ensures Takes(policy, a, s) ==> Takes(policy, Step(policy, a, m.worker, m.action), s)
  {
    assert a.holder[s] == a.workers[w].id;
  }

  // ----- Whole behaviours -----

  lemma {:induction false} ReachesInv(policy: Policy, worlds: seq<World>, moves: seq<Move>, n: nat)
    requires Behaviour(policy, worlds, moves) && n <= |moves|
    ensures Inv(worlds[n])
  {
    if n > 0 {
      ReachesInv(policy, worlds, moves, n - 1);
      StepKeepsInv(policy, worlds[n-1], moves[n-1].worker, moves[n-1].action);
    }
  }

  /** At most one SUCCESS by execution: as long as the repository takes the SUCCESS of step s when one
      is reached, no worker issues or completes s again after its first completion. */
  lemma {:induction false} ExecutedOnce(policy: Policy, worlds: seq<World>, moves: seq<Move>, s: string, n: nat)
    requires Behaviour(policy, worlds, moves) && n <= |moves|
    requires forall i {:trigger moves[i]} :: 0 <= i < n && Succeeds(worlds[i], moves[i], s) ==> Takes(policy, worlds[i], s)
    ensures Once(worlds[n].log, s) && DoneOk(policy, worlds[n], s)
  {
    if n > 0 {
      ExecutedOnce(policy, worlds, moves, s, n - 1);
      ReachesInv(policy, worlds, moves, n - 1);
      StepKeepsOnce(policy, worlds[n-1], moves[n-1], s);
    }
  }

  /** A persisted SUCCESS and its non-empty hash never change, under either write policy. */
  lemma {:induction false} PersistedSuccessStays(policy: Policy, worlds: seq<World>, moves: seq<Move>, s: string, i: nat, j: nat)
    requires Behaviour(policy, worlds, moves) && i <= j <= |moves|
    ensures SuccessStays(worlds[i].records, worlds[j].records, s)
    decreases j - i
  {
    if i < j {
      PersistedSuccessStays(policy, worlds, moves, s, i, j - 1);
      ReachesInv(policy, worlds, moves, j - 1);
      StepKeepsInv(policy, worlds[j-1], moves[j-1].worker, moves[j-1].action);
      assert SuccessStays(worlds[j-1].records, worlds[j].records, s);
    }
  }

  /** Which records take a SUCCESS: any, unless transitions are checked and the step was given up. */
  lemma TakesExactly(policy: Policy, a: World, s: string)
    ensures Takes(policy, a, s) <==>
      s in a.records && (policy == Lenient || a.records[s].status !in {Failed, Skipped, Error})
  {
  }

  lemma {:induction false} RecordsRemain(policy: Policy, worlds: seq<World>, moves: seq<Move>, s: string, n: nat)
    requires Behaviour(policy, worlds, moves) && n <= |moves| && s in worlds[0].records
    ensures s in worlds[n].records
  {
    if n > 0 {
      RecordsRemain(policy, worlds, moves, s, n - 1);
      assert worlds[n] == Step(policy, worlds[n-1], moves[n-1].worker, moves[n-1].action);
    }
  }

  /** With a repository that takes any status, every step it knows is executed at most once. */
  lemma LenientExecutesOnce(worlds: seq<World>, moves: seq<Move>, s: string)
    requires Behaviour(Lenient, worlds, moves) && s in worlds[0].records
    ensures Once(worlds[|moves|].log, s)
  {
    forall i | 0 <= i < |moves| ensures Takes(Lenient, worlds[i], s) { RecordsRemain(Lenient, worlds, moves, s, i); }
    ExecutedOnce(Lenient, worlds, moves, s, |moves|);
  }

  // ----- The repository that checks transitions: a retry after a persisted FAILED -----

  lemma JoinRuns(policy: Policy, worlds: seq<World>, moves: seq<Move>, worlds2: seq<World>, moves2: seq<Move>)
    requires Runs(policy, worlds, moves) && Runs(policy, worlds2, moves2) && worlds[|moves|] == worlds2[0]
    ensures Runs(policy, worlds + worlds2[1..], moves + moves2)
  {
    var ws, ms := worlds + worlds2[1..], moves + moves2;
    forall i {:trigger ms[i]} | 0 <= i < |ms|
      ensures Enabled(ws[i], ms[i].worker, ms[i].action) && ws[i + 1] == Step(policy, ws[i], ms[i].worker, ms[i].action)
    {
      if i < |moves| { assert ms[i] == moves[i]; } else { assert ms[i] == moves2[i - |moves|]; }
    }
  }

  /** A success the repository does not take leaves no trace in the records. */
  lemma UntakenSuccess(policy: Policy, a: World, w: nat, s: string, hash: Option<string>) returns (worlds: seq<World>, moves: seq<Move>)
    requires w in a.workers && a.workers[w].phase == Executing(s) && s in a.workers[w].steps
    requires s in a.holder && a.holder[s] == a.workers[w].id && s in a.records && !Takes(policy, a, s)
    ensures Runs(policy, worlds, moves) && worlds[0] == a
    ensures var d := worlds[|moves|];
            && d.records == a.records && s !in d.holder && d.log == a.log + [Completed(w, s)]
            && forall v :: v in a.workers && v != w ==> v in d.workers && d.workers[v] == a.workers[v]
  {
    var b := Step(policy, a, w, Succeed(hash, hash));
    var c := Step(policy, b, w, Write);
    worlds := [a, b, c, Step(policy, c, w, Release(false))];
    moves := [Move(w, Succeed(hash, hash)), Move(w, Write), Move(w, Release(false))];
  }

  lemma FreshWorkerSucceeds(policy: Policy, d: World, v: nat, s: string, hash: Option<string>) returns (worlds: seq<World>, moves: seq<Move>)
    requires v in d.workers && d.workers[v].phase.Resting? && s in d.workers[v].steps && s !in d.holder
    requires !SuccessIn(d.workers[v].steps, s) && !SuccessIn(d.workers[v].registry, s) && !SuccessIn(d.records, s)
    ensures Runs(policy, worlds, moves) && worlds[0] == d && worlds[|moves|].log == d.log + [Completed(v, s)]
  {
    var e := Step(policy, d, v, Lease(s));
    var f := Step(policy, e, v, Look);
    worlds := [d, e, f, Step(policy, f, v, Succeed(hash, hash))];
    moves := [Move(v, Lease(s)), Move(v, Look), Move(v, Succeed(hash, hash))];
  }

  lemma TwiceIsNotOnce(log: seq<Event>, before: seq<Event>, w: nat, v: nat, s: string)
    requires log == before + [Completed(w, s)] + [Completed(v, s)]
    ensures !Once(log, s)
  {
    assert log[|before|] == Completed(w, s) && log[|before|+1] == Completed(v, s);
  }

  /** Where ExecutedOnce's condition fails it fails for good reason: a success the repository does not
      take can be followed by a second one, by any other worker that has not seen the first. */
  lemma UntakenSuccessRepeats(policy: Policy, a: World, w: nat, v: nat, s: string, hash: Option<string>)
    returns (worlds: seq<World>, moves: seq<Move>)
    requires Inv(a) && w in a.workers && v in a.workers && v != w
    requires a.workers[w].phase == Executing(s) && s in a.workers[w].steps && s in a.records && !Takes(policy, a, s)
    requires a.workers[v].phase.Resting? && s in a.workers[v].steps
    requires !SuccessIn(a.workers[v].steps, s) && !SuccessIn(a.workers[v].registry, s)
    ensures Runs(policy, worlds, moves) && worlds[0] == a && !Once(worlds[|moves|].log, s)
  {
    assert BusyOk(a, a.workers[w]);
    var first, m1 := UntakenSuccess(policy, a, w, s, hash);
    var second, m2 := FreshWorkerSucceeds(policy, first[|m1|], v, s, hash);
    JoinRuns(policy, first, m1, second, m2);
    worlds, moves := first + second[1..], m1 + m2;
    assert worlds[|moves|] == second[|m2|];
    TwiceIsNotOnce(worlds[|moves|].log, a.log, w, v, s);
  }

  /** One attempt at step s that ends in a persisted FAILED. */
  lemma FailsPersistently(a: World, w: nat, s: string) returns (worlds: seq<World>, moves: seq<Move>)
    requires w in a.workers && a.workers[w].phase.Resting? && s !in a.holder && s in a.records && s in a.workers[w].steps
    requires !Terminal(a.records[s].status) && !SuccessIn(a.workers[w].steps, s) && s !in a.workers[w].registry
    ensures Runs(Strict, worlds, moves) && worlds[0] == a
    ensures var f := worlds[|moves|];
            && w in f.workers && f.workers == a.workers[w := f.workers[w]] && f.workers[w].phase.Resting? && s !in f.holder
            && s in f.workers[w].steps && !SuccessIn(f.workers[w].steps, s) && s !in f.workers[w].registry
            && s in f.records && f.records[s].status == Failed && f.workers[w].id == a.workers[w].id
  {
    var b := Step(Strict, a, w, Lease(s));
    var c := Step(Strict, b, w, Look);
    var d := Step(Strict, c, w, Fail(true));
    var e := Step(Strict, d, w, Write);
    var f := Step(Strict, e, w, Release(false));
    worlds := [a, b, c, d, e, f];
    moves := [Move(w, Lease(s)), Move(w, Look), Move(w, Fail(true)), Move(w, Write), Move(w, Release(false))];
  }

  lemma TriesAgain(a: World, w: nat, s: string) returns (worlds: seq<World>, moves: seq<Move>)
    requires w in a.workers && a.workers[w].phase.Resting? && s !in a.holder && s in a.workers[w].steps
    requires !SuccessIn(a.records, s) && !SuccessIn(a.workers[w].steps, s) && s !in a.workers[w].registry
    ensures Runs(Strict, worlds, moves) && worlds[0] == a && worlds[|moves|].records == a.records
    ensures worlds[|moves|].workers == a.workers[w := a.workers[w].(phase := Executing(s))]
  {
    var b := Step(Strict, a, w, Lease(s));
    worlds := [a, b, Step(Strict, b, w, Look)];
    moves := [Move(w, Lease(s)), Move(w, Look)];
  }

  /** From any start with an unfinished step s the transition-checking repository comes to a world
      where a success of s would not be taken: at once if s was given up, else after one failure. */
  lemma ReachesUntakenSuccess(a: World, w: nat, s: string) returns (worlds: seq<World>, moves: seq<Move>)
    requires Initial(a) && w in a.workers && s !in a.holder && s in a.records && s in a.workers[w].steps
    requires !SuccessIn(a.records, s) && !SuccessIn(a.workers[w].steps, s)
    ensures Runs(Strict, worlds, moves) && worlds[0] == a
    ensures var last := worlds[|moves|];
            && w in last.workers && last.workers[w].phase == Executing(s) && s in last.workers[w].steps
            && s in last.records && !Takes(Strict, last, s)
            && last.workers == a.workers[w := last.workers[w]]
  {
    if Terminal(a.records[s].status) {
      worlds, moves := TriesAgain(a, w, s);
    } else {
      worlds, moves := FailsPersistently(a, w, s);
      var again, more := TriesAgain(worlds[|moves|], w, s);
      JoinRuns(Strict, worlds, moves, again, more);
      worlds, moves := worlds + again[1..], moves + more;
    }
  }

  /** Double execution: from every start with two workers that hold step s unfinished, and no lease on
      it, some behaviour of the transition-checking repository executes s to SUCCESS twice. */
  lemma StrictExecutesTwice(a: World, w: nat, v: nat, s: string) returns (worlds: seq<World>, moves: seq<Move>)
    requires Initial(a) && DistinctIds(a) && w in a.workers && v in a.workers && v != w
    requires s !in a.holder && s in a.records && !SuccessIn(a.records, s)
    requires s in a.workers[w].steps && !SuccessIn(a.workers[w].steps, s)
    requires s in a.workers[v].steps && !SuccessIn(a.workers[v].steps, s)
    ensures Behaviour(Strict, worlds, moves) && worlds[0] == a && !Once(worlds[|moves|].log, s)
  {
    worlds, moves := ReachesUntakenSuccess(a, w, s);
    ReachesInv(Strict, worlds, moves, |moves|);
    var rest, more := UntakenSuccessRepeats(Strict, worlds[|moves|], w, v, s, None);
    JoinRuns(Strict, worlds, moves, rest, more);
    worlds, moves := worlds + rest[1..], moves + more;
  }

  // ----- Runs that share a worker id -----

  /** Worker w gets the lease of step s and past the skip test, whether or not its id holds the lease already. */
  lemma GetsIn(policy: Policy, a: World, w: nat, s: string) returns (worlds: seq<World>, moves: seq<Move>)
    requires w in a.workers && a.workers[w].phase.Resting? && a.workers[w].registry == map[]
    requires (s in a.holder ==> a.holder[s] == a.workers[w].id) && !SuccessIn(a.records, s)
    requires s in a.workers[w].steps && !SuccessIn(a.workers[w].steps, s)
    ensures Runs(policy, worlds, moves) && worlds[0] == a
    ensures worlds[|moves|] == a.(holder := a.holder[s := a.workers[w].id], workers := a.workers[w := a.workers[w].(phase := Executing(s))])
  {
    var b := Step(policy, a, w, Lease(s));
    var c := Step(policy, b, w, Look);
    assert c.workers == a.workers[w := a.workers[w].(phase := Executing(s))];
    worlds := [a, b, c];
    moves := [Move(w, Lease(s)), Move(w, Look)];
  }

  lemma BothGetIn(policy: Policy, a: World, w: nat, v: nat, s: string) returns (worlds: seq<World>, moves: seq<Move>)
    requires Initial(a) && w in a.workers && v in a.workers && v != w && a.workers[w].id == a.workers[v].id
    requires s !in a.holder && !SuccessIn(a.records, s)
    requires s in a.workers[w].steps && !SuccessIn(a.workers[w].steps, s)
    requires s in a.workers[v].steps && !SuccessIn(a.workers[v].steps, s)
    ensures Runs(policy, worlds, moves) && worlds[0] == a && worlds[|moves|].log == a.log
    ensures worlds[|moves|].workers ==
              a.workers[w := a.workers[w].(phase := Executing(s))][v := a.workers[v].(phase := Executing(s))]
  {
    worlds, moves := GetsIn(policy, a, w, s);
    var rest, more := GetsIn(policy, worlds[|moves|], v, s);
    JoinRuns(policy, worlds, moves, rest, more);
    worlds, moves := worlds + rest[1..], moves + more;
  }

  lemma BothSucceed(policy: Policy, a: World, w: nat, v: nat, s: string) returns (worlds: seq<World>, moves: seq<Move>)
    requires w in a.workers && v in a.workers && v != w
    requires a.workers[w].phase == Executing(s) && s in a.workers[w].steps
    requires a.workers[v].phase == Executing(s) && s in a.workers[v].steps
    ensures Runs(policy, worlds, moves) && worlds[0] == a && !Once(worlds[|moves|].log, s)
  {
    var b := Step(policy, a, w, Succeed(None, None));
    worlds := [a, b, Step(policy, b, v, Succeed(None, None))];
    moves := [Move(w, Succeed(None, None)), Move(v, Succeed(None, None))];
    TwiceIsNotOnce(worlds[2].log, a.log, w, v, s);
  }

  /** Distinct ids are needed: a lease is granted again to the id that holds it, so two concurrent runs
      under one id, as of one coordinator, both get the step and both execute it, under either policy. */
  lemma SharedIdExecutesTwice(policy: Policy, a: World, w: nat, v: nat, s: string) returns (worlds: seq<World>, moves: seq<Move>)
    requires Initial(a) && w in a.workers && v in a.workers && v != w && a.workers[w].id == a.workers[v].id
    requires s !in a.holder && !SuccessIn(a.records, s)
    requires s in a.workers[w].steps && !SuccessIn(a.workers[w].steps, s)
    requires s in a.workers[v].steps && !SuccessIn(a.workers[v].steps, s)
    ensures Runs(policy, worlds, moves) && worlds[0] == a && !Once(worlds[|moves|].log, s)
  {
    worlds, moves := BothGetIn(policy, a, w, v, s);
    var rest, more := BothSucceed(policy, worlds[|moves|], w, v, s);
    JoinRuns(policy, worlds, moves, rest, more);
    worlds, moves := worlds + rest[1..], moves + more;
  }
}
