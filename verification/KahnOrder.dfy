/** getTopologicalOrder: Kahn's algorithm with a FIFO queue, and what its order guarantees. */
module KahnOrder {
  import opened Js
  import opened PlanGraph

  // ----- The algorithm as a function of its state -----

  datatype State = State(inDegree: map<string, int>, queue: seq<string>, ordered: seq<string>)

  function Repeat(x: string, n: nat): (r: seq<string>)
    ensures |r| == n && forall k :: 0 <= k < n ==> r[k] == x
  {
    seq(n, _ => x)
  }

  /** graph.get(c): one entry per dependency occurrence on c, in step order. */
  function Dependents(g: seq<Node>, c: string): seq<string> {
    if g == [] then []
    else Dependents(g[..|g|-1], c) + Repeat(g[|g|-1].id, multiset(g[|g|-1].deps)[c])
  }

  /** `(inDegree.get(dep) || 1) - 1`: the fallback stands in for a missing or zero entry. */
  function Decremented(inDegree: map<string, int>, dep: string): int {
    (if dep in inDegree && inDegree[dep] != 0 then inDegree[dep] else 1) - 1
  }

  /** The inner loop: decrement each dependent, queueing those that reach zero. */
  function Relax(ds: seq<string>, inDegree: map<string, int>, queue: seq<string>): (map<string, int>, seq<string>) {
    if ds == [] then (inDegree, queue)
    else
      var d := Decremented(inDegree, ds[0]);
      Relax(ds[1..], inDegree[ds[0] := d], if d == 0 then queue + [ds[0]] else queue)
  }

  function Roots(g: seq<Node>): seq<string> {
    if g == [] then []
    else Roots(g[..|g|-1]) + (if g[|g|-1].deps == [] then [g[|g|-1].id] else [])
  }

  function Degrees(g: seq<Node>): map<string, int> {
    if g == [] then map[] else Degrees(g[..|g|-1])[g[|g|-1].id := |g[|g|-1].deps|]
  }

  function Start(g: seq<Node>): State {
    State(Degrees(g), Roots(g), [])
  }

  /** One turn of the outer loop. */
  function Step(g: seq<Node>, s: State): State {
    if s.queue == [] then s
    else
      var c := s.queue[0];
      var (deg, q) := Relax(Dependents(g, c), s.inDegree, s.queue[1..]);
      State(deg, q, s.ordered + [c])
  }

  function After(g: seq<Node>, n: nat): State {
    if n == 0 then Start(g) else Step(g, After(g, n - 1))
  }

  /** The order: |g| turns always suffice (see OrderIsPermutation). */
  function TopologicalOrder(g: seq<Node>): seq<string> {
    After(g, |g|).ordered
  }

  // ----- The invariant -----

  /** Dependency occurrences not yet in `done`, counting duplicates. */
  function Pending(deps: seq<string>, done: seq<string>): nat {
    if deps == [] then 0
    else Pending(deps[..|deps|-1], done) + (if deps[|deps|-1] in done then 0 else 1)
  }

  ghost predicate Inv(g: seq<Node>, s: State) {
    && Distinct(s.ordered + s.queue)
    && (forall x :: x in s.ordered + s.queue ==> x in Ids(g))
    && (forall x :: x in s.inDegree ==> x in Ids(g))
    && (forall i :: 0 <= i < |g| ==> DegreeOk(g[i], s))
    && DepsFirst(g, s.ordered)
  }

  /** A step's degree counts its unfinished dependency occurrences; zero means queued or done. */
  ghost predicate DegreeOk(n: Node, s: State) {
    && n.id in s.inDegree
    && s.inDegree[n.id] == Pending(n.deps, s.ordered)
    && (s.inDegree[n.id] == 0 <==> n.id in s.ordered + s.queue)
  }

  lemma {:induction false} PendingZero(deps: seq<string>, done: seq<string>)
    ensures Pending(deps, done) == 0 <==> forall d :: d in deps ==> d in done
  {
    if deps != [] {
      PendingZero(deps[..|deps|-1], done);
      assert deps == deps[..|deps|-1] + [deps[|deps|-1]];
    }
  }

  /** Finishing c removes exactly its occurrences. */
  lemma {:induction false} PendingDrops(deps: seq<string>, done: seq<string>, c: string)
    requires c !in done
    ensures Pending(deps, done + [c]) == Pending(deps, done) - multiset(deps)[c]
  {
    if deps != [] {
      var front, d := deps[..|deps|-1], deps[|deps|-1];
      PendingDrops(front, done, c);
      assert deps == front + [d];
      assert multiset(deps) == multiset(front) + multiset{d};
    }
  }

  lemma {:induction false} PendingNone(deps: seq<string>)
    ensures Pending(deps, []) == |deps|
  {
    if deps != [] { PendingNone(deps[..|deps|-1]); }
  }

  lemma RepeatCount(x: string, n: nat, y: string)
    ensures multiset(Repeat(x, n))[y] == if y == x then n else 0
  {
    if n > 0 {
      RepeatCount(x, n - 1, y);
      assert Repeat(x, n) == Repeat(x, n - 1) + [x];
    }
  }

  lemma {:induction false} DependentsOutside(g: seq<Node>, c: string, x: string)
    requires forall i :: 0 <= i < |g| ==> g[i].id != x
    ensures multiset(Dependents(g, c))[x] == 0
  {
    if g != [] {
      DependentsOutside(g[..|g|-1], c, x);
      RepeatCount(g[|g|-1].id, multiset(g[|g|-1].deps)[c], x);
    }
  }

  /** The last step adds its id once per occurrence, and nothing else. */
  lemma DependentsMore(g: seq<Node>, c: string, x: string)
    requires g != []
    ensures multiset(Dependents(g, c))[x] ==
            multiset(Dependents(g[..|g|-1], c))[x] + (if x == g[|g|-1].id then multiset(g[|g|-1].deps)[c] else 0)
  {
    RepeatCount(g[|g|-1].id, multiset(g[|g|-1].deps)[c], x);
  }

  /** Step i appears among c's dependents once per occurrence of c in its dependencies. */
  lemma {:induction false} DependentsCount(g: seq<Node>, c: string, i: nat)
    requires DistinctIds(g) && i < |g|
    ensures multiset(Dependents(g, c))[g[i].id] == multiset(g[i].deps)[c]
  {
    var k := |g| - 1;
    DependentsMore(g, c, g[i].id);
    if i == k {
      forall j | 0 <= j < k ensures g[..k][j].id != g[k].id { assert g[j].id != g[k].id; }
      DependentsOutside(g[..k], c, g[i].id);
    } else {
      assert g[i].id != g[k].id;
      DependentsCount(g[..k], c, i);
    }
  }

  /** Relaxing a list whose counts the degrees can bear: every decrement is from a positive entry,
      and each id reaching zero is queued exactly once. */
  lemma {:induction false} RelaxCounts(ds: seq<string>, deg: map<string, int>, q: seq<string>, deg': map<string, int>, q': seq<string>)
    requires forall x :: x in ds ==> x in deg && deg[x] >= multiset(ds)[x]
    requires (deg', q') == Relax(ds, deg, q)
    ensures deg'.Keys == deg.Keys
    ensures forall x :: x in deg ==> deg'[x] == deg[x] - multiset(ds)[x]
    ensures |q| <= |q'| && q'[..|q|] == q && Distinct(q'[|q|..])
    ensures forall x :: x in q'[|q|..] <==> x in ds && deg'[x] == 0
  {
    if ds != [] {
      var d, rest := ds[0], ds[1..];
      CountHead(ds);
      var v := deg[d] - 1;
      var q1 := if v == 0 then q + [d] else q;
      RelaxCounts(rest, deg[d := v], q1, deg', q');
      if v == 0 { QueueTail(q, d, q'); }
    }
  }

  lemma CountHead(ds: seq<string>)
    requires ds != []
    ensures ds[0] in ds && forall x :: x in ds <==> x == ds[0] || x in ds[1..]
    ensures forall x :: multiset(ds)[x] == multiset(ds[1..])[x] + (if x == ds[0] then 1 else 0)
  {
    assert ds == [ds[0]] + ds[1..];
  }

  lemma QueueTail(q: seq<string>, d: string, q': seq<string>)
    requires |q| < |q'| && q'[..|q|+1] == q + [d]
    ensures q'[..|q|] == q && q'[|q|..] == [d] + q'[|q|+1..]
  {
    assert q'[..|q|] == q'[..|q|+1][..|q|];
  }

  lemma {:induction false} DegreesShape(g: seq<Node>)
    requires DistinctIds(g)
    ensures forall x :: x in Degrees(g) ==> x in Ids(g)
    ensures forall i :: 0 <= i < |g| ==> g[i].id in Degrees(g) && Degrees(g)[g[i].id] == |g[i].deps|
  {
    if g != [] {
      DegreesShape(g[..|g|-1]);
      assert Ids(g) == Ids(g[..|g|-1]) + [g[|g|-1].id];
    }
  }

  lemma LastIdNew(g: seq<Node>)
    requires DistinctIds(g) && g != []
    ensures Ids(g) == Ids(g[..|g|-1]) + [g[|g|-1].id] && g[|g|-1].id !in Ids(g[..|g|-1])
  {
    assert forall k :: 0 <= k < |g| - 1 ==> Ids(g[..|g|-1])[k] == g[k].id;
  }

  lemma {:induction false} RootsShape(g: seq<Node>)
    requires DistinctIds(g)
    ensures Distinct(Roots(g))
    ensures forall x :: x in Roots(g) ==> x in Ids(g)
    ensures forall i :: 0 <= i < |g| ==> (g[i].id in Roots(g) <==> g[i].deps == [])
  {
    if g != [] {
      var f, last := g[..|g|-1], g[|g|-1];
      LastIdNew(g);
      RootsShape(f);
      forall i | 0 <= i < |g| ensures g[i].id in Roots(g) <==> g[i].deps == [] {
        if i < |f| { assert f[i] == g[i] && g[i].id != last.id; }
      }
    }
  }

  lemma StartInv(g: seq<Node>)
    requires DistinctIds(g)
    ensures Inv(g, Start(g))
  {
    DegreesShape(g);
    RootsShape(g);
    forall i | 0 <= i < |g| ensures DegreeOk(g[i], Start(g)) {
      PendingNone(g[i].deps);
      assert [] + Roots(g) == Roots(g);
    }
  }

  lemma HeadNotDone(done: seq<string>, queue: seq<string>)
    requires Distinct(done + queue) && queue != []
    ensures queue[0] !in done
  {
    var all := done + queue;
    forall i | 0 <= i < |done| ensures done[i] != queue[0] {
      assert all[i] == done[i] && all[|done|] == queue[0];
    }
  }

  /** Every decrement the turn for c makes is from a positive entry. */
  lemma DegreesBear(g: seq<Node>, s: State)
    requires DistinctIds(g) && Inv(g, s) && s.queue != []
    ensures forall x :: x in Dependents(g, s.queue[0]) ==>
              x in s.inDegree && s.inDegree[x] >= multiset(Dependents(g, s.queue[0]))[x]
  {
    var c := s.queue[0];
    HeadNotDone(s.ordered, s.queue);
    forall x | x in Dependents(g, c) ensures x in s.inDegree && s.inDegree[x] >= multiset(Dependents(g, c))[x] {
      if forall i :: 0 <= i < |g| ==> g[i].id != x { DependentsOutside(g, c, x); }
      var i :| 0 <= i < |g| && g[i].id == x;
      assert DegreeOk(g[i], s);
      DependentsCount(g, c, i);
      PendingDrops(g[i].deps, s.ordered, c);
    }
  }

  /** What one turn does: the processed id moves over, its dependents' degrees drop by the number of
      its occurrences, and exactly those that reach zero are appended, once each. */
  lemma StepEffect(g: seq<Node>, s: State) returns (ready: seq<string>)
    requires DistinctIds(g) && Inv(g, s) && s.queue != []
    ensures Step(g, s).queue == s.queue[1..] + ready && Step(g, s).ordered == s.ordered + [s.queue[0]]
    ensures Step(g, s).inDegree.Keys == s.inDegree.Keys
    ensures forall i :: 0 <= i < |g| ==> DegreeOk(g[i], s)
    ensures forall i :: 0 <= i < |g| ==>
              Step(g, s).inDegree[g[i].id] == s.inDegree[g[i].id] - multiset(g[i].deps)[s.queue[0]]
    ensures Distinct(ready)
    ensures forall i :: 0 <= i < |g| ==>
              (g[i].id in ready <==> s.queue[0] in g[i].deps && Step(g, s).inDegree[g[i].id] == 0)
    ensures forall x :: x in ready ==> x in Ids(g)
  {
    var c, s' := s.queue[0], Step(g, s);
    var ds := Dependents(g, c);
    DegreesBear(g, s);
    RelaxCounts(ds, s.inDegree, s.queue[1..], s'.inDegree, s'.queue);
    ready := s'.queue[|s.queue|-1..];
    assert s'.queue == s'.queue[..|s.queue|-1] + ready;
    forall i | 0 <= i < |g|
      ensures DegreeOk(g[i], s)
      ensures g[i].id in ds <==> c in g[i].deps
      ensures s'.inDegree[g[i].id] == s.inDegree[g[i].id] - multiset(g[i].deps)[c]
    {
      DependentsCount(g, c, i);
    }
  }

  lemma StepDegrees(g: seq<Node>, s: State, ready: seq<string>)
    requires DistinctIds(g) && Inv(g, s) && s.queue != []
    requires Step(g, s).queue == s.queue[1..] + ready && Step(g, s).ordered == s.ordered + [s.queue[0]]
    requires Step(g, s).inDegree.Keys == s.inDegree.Keys
    requires forall i :: 0 <= i < |g| ==>
               Step(g, s).inDegree[g[i].id] == s.inDegree[g[i].id] - multiset(g[i].deps)[s.queue[0]]
    requires forall i :: 0 <= i < |g| ==>
               (g[i].id in ready <==> s.queue[0] in g[i].deps && Step(g, s).inDegree[g[i].id] == 0)
    ensures forall i :: 0 <= i < |g| ==> DegreeOk(g[i], Step(g, s))
    ensures forall i :: 0 <= i < |g| && g[i].id in ready ==> g[i].id !in s.ordered + s.queue
  {
    var s' := Step(g, s);
    assert s'.ordered + s'.queue == s.ordered + s.queue + ready;
    HeadNotDone(s.ordered, s.queue);
    forall i | 0 <= i < |g| ensures DegreeOk(g[i], s') && (g[i].id in ready ==> g[i].id !in s.ordered + s.queue) {
      PendingDrops(g[i].deps, s.ordered, s.queue[0]);
      assert DegreeOk(g[i], s);
    }
  }

  lemma DistinctJoin(a: seq<string>, b: seq<string>)
    requires Distinct(a) && Distinct(b) && forall j :: 0 <= j < |b| ==> b[j] !in a
    ensures Distinct(a + b)
  {
  }

  /** The ids a turn appends were never queued before. */
  lemma StepNoRepeat(g: seq<Node>, all: seq<string>, ready: seq<string>)
    requires Distinct(all) && Distinct(ready) && forall x :: x in ready ==> x in Ids(g)
    requires forall i :: 0 <= i < |g| && g[i].id in ready ==> g[i].id !in all
    ensures Distinct(all + ready)
  {
    forall j | 0 <= j < |ready| ensures ready[j] !in all {
      var k := IndexOf(Ids(g), ready[j]);
      assert g[k].id in ready;
    }
    DistinctJoin(all, ready);
  }

  lemma StepKeepsInv(g: seq<Node>, s: State)
    requires DistinctIds(g) && Inv(g, s)
    ensures Inv(g, Step(g, s))
  {
    if s.queue != [] {
      var s' := Step(g, s);
      var ready := StepEffect(g, s);
      assert s'.ordered + s'.queue == s.ordered + s.queue + ready;
      StepDegrees(g, s, ready);
      StepNoRepeat(g, s.ordered + s.queue, ready);
      OrderedDepsFirst(g, s);
    }
  }

  lemma OrderedDepsFirst(g: seq<Node>, s: State)
    requires DistinctIds(g) && Inv(g, s) && s.queue != []
    ensures DepsFirst(g, s.ordered + [s.queue[0]])
  {
    var c, o := s.queue[0], s.ordered + [s.queue[0]];
    assert c in s.ordered + s.queue;
    var k := IndexOf(Ids(g), c);
    assert DegreeOk(g[k], s);
    PendingZero(g[k].deps, s.ordered);
    forall i, d | 0 <= i < |o| && DependsOn(g, o[i], d) ensures d in o[..i] {
      assert o[..i] == s.ordered[..i];
      if i == |s.ordered| { assert s.ordered[..i] == s.ordered; }
    }
  }

  lemma {:induction false} AfterInv(g: seq<Node>, n: nat)
    requires DistinctIds(g)
    ensures Inv(g, After(g, n))
  {
    if n == 0 { StartInv(g); } else { AfterInv(g, n - 1); StepKeepsInv(g, After(g, n - 1)); }
  }

  // ----- The order is a dependency-first permutation of the steps -----

  ghost predicate HasNext(g: seq<Node>, S: set<string>, y: string) {
    exists d :: d in S && DependsOn(g, y, d)
  }

  lemma {:induction false} BuildWalk(g: seq<Node>, S: set<string>, x: string, n: nat) returns (p: seq<string>)
    requires x in S && forall y {:trigger HasNext(g, S, y)} :: y in S ==> HasNext(g, S, y)
    ensures |p| == n + 1 && p[0] == x && Walk(g, p) && forall y :: y in p ==> y in S
    decreases n
  {
    if n == 0 {
      p := [x];
    } else {
      assert HasNext(g, S, x);
      var d :| d in S && DependsOn(g, x, d);
      var rest := BuildWalk(g, S, d, n - 1);
      p := [x] + rest;
    }
  }

  lemma {:induction false} DistinctCard(s: seq<string>, S: set<string>)
    requires Distinct(s) && forall x :: x in s ==> x in S
    ensures |s| <= |S|
  {
    if s != [] {
      var last := s[|s|-1];
      assert forall i :: 0 <= i < |s| - 1 ==> s[i] != last;
      DistinctCard(s[..|s|-1], S - {last});
    }
  }

  lemma {:induction false} IdsCard(g: seq<Node>)
    ensures |set x | x in Ids(g)| <= |g|
  {
    if g != [] {
      var f := g[..|g|-1];
      IdsCard(f);
      assert Ids(g) == Ids(f) + [g[|g|-1].id];
      assert (set x | x in Ids(g)) == (set x | x in Ids(f)) + {g[|g|-1].id};
    }
  }

  /** A non-empty set of steps each depending on a member of the set contains a cycle. */
  lemma StuckSetHasCycle(g: seq<Node>, S: set<string>)
    requires S != {} && forall y {:trigger HasNext(g, S, y)} :: y in S ==> HasNext(g, S, y)
    ensures !Acyclic(g)
  {
    var x :| x in S;
    var p := BuildWalk(g, S, x, |S|);
    if Distinct(p) { DistinctCard(p, S); }
    var i, j :| 0 <= i < j < |p| && p[i] == p[j];
    RepeatClosesPath(g, p, i, j);
  }

  lemma RepeatClosesPath(g: seq<Node>, p: seq<string>, i: nat, j: nat)
    requires Walk(g, p) && i < j < |p| && p[i] == p[j]
    ensures ClosedPath(g, p[i..j+1])
  {
    var q := p[i..j+1];
    forall k | 0 <= k < |q| - 1 ensures DependsOn(g, q[k], q[k+1]) {
      assert q[k] == p[i+k] && q[k+1] == p[i+k+1];
    }
  }

  /** When the queue runs dry on a valid graph, nothing is left over. */
  lemma NothingLeft(g: seq<Node>, s: State)
    requires Valid(g) && Inv(g, s) && s.queue == []
    ensures forall i :: 0 <= i < |g| ==> g[i].id in s.ordered
  {
    var S := set i | 0 <= i < |g| && g[i].id !in s.ordered :: g[i].id;
    forall y | y in S ensures HasNext(g, S, y) {
      var i :| 0 <= i < |g| && g[i].id == y && y !in s.ordered;
      assert DegreeOk(g[i], s);
      PendingZero(g[i].deps, s.ordered);
      var d :| d in g[i].deps && d !in s.ordered;
      var k := IndexOf(Ids(g), d);
      assert g[k].id == d && DependsOn(g, y, d);
    }
    if S != {} { StuckSetHasCycle(g, S); }
    forall i | 0 <= i < |g| ensures g[i].id in s.ordered { assert g[i].id !in S; }
  }

  lemma {:induction false} TurnsTaken(g: seq<Node>, n: nat)
    ensures After(g, n).queue == [] || |After(g, n).ordered| == n
  {
    if n > 0 { TurnsTaken(g, n - 1); }
  }

  lemma QueueRunsDry(g: seq<Node>)
    requires DistinctIds(g)
    ensures After(g, |g|).queue == []
  {
    var s := After(g, |g|);
    AfterInv(g, |g|);
    TurnsTaken(g, |g|);
    IdsCard(g);
    DistinctCard(s.ordered + s.queue, set x | x in Ids(g));
  }

  lemma {:induction false} DistinctCounts(s: seq<string>, x: string)
    requires Distinct(s)
    ensures multiset(s)[x] == if x in s then 1 else 0
  {
    if s != [] {
      var front, last := s[..|s|-1], s[|s|-1];
      assert s == front + [last];
      assert forall i :: 0 <= i < |front| ==> front[i] != last;
      DistinctCounts(front, x);
    }
  }

  /** On every accepted plan the order is a permutation of the steps, dependencies first. */
  lemma OrderIsPermutation(g: seq<Node>)
    requires Valid(g)
    ensures multiset(TopologicalOrder(g)) == multiset(Ids(g))
    ensures |TopologicalOrder(g)| == |g| && Distinct(TopologicalOrder(g))
    ensures DepsFirst(g, TopologicalOrder(g))
  {
    var s := After(g, |g|);
    var o := s.ordered;
    AfterInv(g, |g|);
    QueueRunsDry(g);
    assert o + s.queue == o;
    NothingLeft(g, s);
    forall x ensures multiset(o)[x] == multiset(Ids(g))[x] {
      DistinctCounts(o, x);
      DistinctCounts(Ids(g), x);
      if x in Ids(g) { var k := IndexOf(Ids(g), x); assert g[k].id == x; }
    }
    assert multiset(o) == multiset(Ids(g));
    assert |o| == |multiset(o)| == |multiset(Ids(g))| == |Ids(g)|;
  }

  /** The `|| 1` fallback never fires: just before any decrement the entry is at least 1. */
  lemma FallbackNeverFires(g: seq<Node>, n: nat, j: nat)
    requires DistinctIds(g) && After(g, n).queue != []
    requires j < |Dependents(g, After(g, n).queue[0])|
    ensures var s := After(g, n); var ds := Dependents(g, s.queue[0]);
            var deg := Relax(ds[..j], s.inDegree, s.queue[1..]).0;
            ds[j] in deg && deg[ds[j]] >= 1
  {
    var s := After(g, n);
    var ds := Dependents(g, s.queue[0]);
    AfterInv(g, n);
    DegreesBear(g, s);
    CountBefore(ds, j);
    var r := Relax(ds[..j], s.inDegree, s.queue[1..]);
    RelaxCounts(ds[..j], s.inDegree, s.queue[1..], r.0, r.1);
  }

  lemma CountBefore(ds: seq<string>, j: nat)
    requires j < |ds|
    ensures forall x :: x in ds[..j] ==> x in ds
    ensures forall x :: multiset(ds)[x] >= multiset(ds[..j])[x] + (if x == ds[j] then 1 else 0)
  {
    assert ds == ds[..j] + [ds[j]] + ds[j+1..];
  }

  /** Every id enters the queue exactly once over the whole run: the ids ever queued, in order, are
      those finished plus those waiting, and they never repeat. */
  lemma QueuedOnce(g: seq<Node>, n: nat)
    requires DistinctIds(g)
    ensures After(g, n).ordered + After(g, n).queue <= After(g, n + 1).ordered + After(g, n + 1).queue
    ensures Distinct(After(g, n).ordered + After(g, n).queue)
  {
    AfterInv(g, n);
    QueueGrows(g, After(g, n));
  }

  lemma {:induction false} RelaxAppends(ds: seq<string>, deg: map<string, int>, q: seq<string>)
    ensures q <= Relax(ds, deg, q).1
  {
    if ds != [] {
      var d := Decremented(deg, ds[0]);
      RelaxAppends(ds[1..], deg[ds[0] := d], if d == 0 then q + [ds[0]] else q);
    }
  }

  lemma QueueGrows(g: seq<Node>, s: State)
    ensures s.ordered + s.queue <= Step(g, s).ordered + Step(g, s).queue
  {
    if s.queue != [] {
      RelaxAppends(Dependents(g, s.queue[0]), s.inDegree, s.queue[1..]);
      assert s.ordered + s.queue == s.ordered + [s.queue[0]] + s.queue[1..];
    }
  }

  // ----- The algorithm as it runs -----

  datatype OrderResult = Ordered(order: seq<string>) | Rejected(error: GraphError)

  method InitialDegrees(g: seq<Node>) returns (inDegree: map<string, int>, graph: map<string, seq<string>>)
    requires DistinctIds(g)
    ensures inDegree == Degrees(g)
    ensures forall x :: x in graph <==> x in Ids(g)
    ensures forall x :: x in graph ==> graph[x] == []
  {
    inDegree, graph := map[], map[];
    for i := 0 to |g|
      invariant inDegree == Degrees(g[..i])
      invariant forall x :: x in graph <==> x in Ids(g[..i])
      invariant forall x :: x in graph ==> graph[x] == []
    {
      assert g[..i+1][..i] == g[..i];
      assert Ids(g[..i+1]) == Ids(g[..i]) + [g[i].id];
      inDegree := inDegree[g[i].id := |g[i].deps|];
      graph := graph[g[i].id := []];
    }
    assert g[..|g|] == g;
  }

  lemma RepeatMore(x: string, n: nat)
    ensures Repeat(x, n + 1) == Repeat(x, n) + [x]
  {
  }

  /** Pushes id under each of its dependency occurrences. */
  method AddEdges(graph: map<string, seq<string>>, n: Node) returns (r: map<string, seq<string>>)
    ensures r.Keys == graph.Keys
    ensures forall x :: x in graph ==> r[x] == graph[x] + Repeat(n.id, multiset(n.deps)[x])
  {
    r := graph;
    for j := 0 to |n.deps|
      invariant r.Keys == graph.Keys
      invariant forall x :: x in graph ==> r[x] == graph[x] + Repeat(n.id, multiset(n.deps[..j])[x])
    {
      var d := n.deps[j];
      assert n.deps[..j+1] == n.deps[..j] + [d];
      RepeatMore(n.id, multiset(n.deps[..j])[d]);
      if d in r { r := r[d := r[d] + [n.id]]; }
    }
    assert n.deps[..|n.deps|] == n.deps;
  }

  method BuildGraph(g: seq<Node>, empty: map<string, seq<string>>) returns (graph: map<string, seq<string>>)
    requires forall x :: x in empty <==> x in Ids(g)
    requires forall x :: x in empty ==> empty[x] == []
    ensures graph.Keys == empty.Keys
    ensures forall x :: x in graph ==> graph[x] == Dependents(g, x)
  {
    graph := empty;
    for i := 0 to |g|
      invariant graph.Keys == empty.Keys
      invariant forall x :: x in graph ==> graph[x] == Dependents(g[..i], x)
    {
      assert g[..i+1][..i] == g[..i];
      graph := AddEdges(graph, g[i]);
    }
    assert g[..|g|] == g;
  }

  method InitialQueue(g: seq<Node>, inDegree: map<string, int>) returns (queue: seq<string>)
    requires DistinctIds(g) && inDegree == Degrees(g)
    ensures queue == Roots(g)
  {
    DegreesShape(g);
    queue := [];
    for i := 0 to |g|
      invariant queue == Roots(g[..i])
    {
      assert g[..i+1][..i] == g[..i];
      if inDegree[g[i].id] == 0 { queue := queue + [g[i].id]; }
    }
    assert g[..|g|] == g;
  }

  method RelaxAll(ds: seq<string>, inDegree: map<string, int>, queue: seq<string>)
    returns (deg: map<string, int>, q: seq<string>)
    ensures (deg, q) == Relax(ds, inDegree, queue)
  {
    deg, q := inDegree, queue;
    for j := 0 to |ds|
      invariant Relax(ds, inDegree, queue) == Relax(ds[j..], deg, q)
    {
      var newDeg := (if ds[j] in deg && deg[ds[j]] != 0 then deg[ds[j]] else 1) - 1;
      assert ds[j..][1..] == ds[j+1..];
      deg := deg[ds[j] := newDeg];
      if newDeg == 0 { q := q + [ds[j]]; }
    }
  }

  /** getTopologicalOrder: rejects exactly what the validator rejects, else returns the order. */
  method GetTopologicalOrder(g: seq<Node>) returns (r: OrderResult)
    ensures r.Ordered? <==> Valid(g)
    ensures r.Ordered? ==> r.order == TopologicalOrder(g)
  {
    var error := ValidateDependencyGraph(g);
    if error.Some? { return Rejected(error.value); }
    var inDegree, empty := InitialDegrees(g);
    var graph := BuildGraph(g, empty);
    var queue := InitialQueue(g, inDegree);
    var ordered := DrainQueue(g, graph, inDegree, queue);
    r := Ordered(ordered);
  }

  /** The outer loop, from the starting degrees and queue. */
  method DrainQueue(g: seq<Node>, graph: map<string, seq<string>>, inDegree: map<string, int>, queue: seq<string>)
    returns (ordered: seq<string>)
    requires DistinctIds(g) && State(inDegree, queue, []) == Start(g)
    requires forall x :: x in Ids(g) ==> x in graph && graph[x] == Dependents(g, x)
    ensures ordered == TopologicalOrder(g)
  {
    var deg, q := inDegree, queue;
    ordered := [];
    ghost var n := 0;
    while q != []
      invariant n <= |g| && State(deg, q, ordered) == After(g, n)
      decreases |g| - n
    {
      TurnReady(g, n);
      var currId := q[0];
      ordered := ordered + [currId];
      deg, q := RelaxAll(graph[currId], deg, q[1..]);
      n := n + 1;
    }
    SettledOrder(g, n, |g|);
  }

  lemma TurnReady(g: seq<Node>, n: nat)
    requires DistinctIds(g) && n <= |g| && After(g, n).queue != []
    ensures n < |g| && After(g, n).queue[0] in Ids(g)
  {
    QueueRunsDry(g);
    AfterInv(g, n);
    var s := After(g, n);
    assert s.queue[0] in s.ordered + s.queue;
  }

  lemma {:induction false} SettledOrder(g: seq<Node>, n: nat, m: nat)
    requires n <= m && After(g, n).queue == []
    ensures After(g, m) == After(g, n)
    decreases m
  {
    if n < m { SettledOrder(g, n, m - 1); }
  }
}
