/** What the FIFO queue adds: the order never steps back in dependency depth. And for a plan whose
    steps form a chain, the order is the listing itself. */
module KahnDepth {
  import opened Js
  import opened PlanGraph
  import opened KahnOrder

  ghost predicate Ranked(g: seq<Node>, o: seq<string>) {
    DistinctIds(g) && DepsFirst(g, o) && forall x :: x in o ==> x in Ids(g)
  }

  /** Length of the longest dependency chain below o[i], in edges. */
  ghost function Level(g: seq<Node>, o: seq<string>, i: nat): nat
    requires Ranked(g, o) && i < |o|
    decreases i, 1, 0
  {
    assert o[i] in o;
    var ds := DepsOf(g, o[i]);
    assert forall d :: d in ds ==> d in o[..i] by {
      forall d | d in ds ensures d in o[..i] { DepsOfIsDependsOn(g, o[i], d); }
    }
    MaxOver(g, o, i, ds)
  }

  ghost function MaxOver(g: seq<Node>, o: seq<string>, i: nat, ds: seq<string>): nat
    requires Ranked(g, o) && i <= |o| && forall d :: d in ds ==> d in o[..i]
    decreases i, 0, |ds|
  {
    if ds == [] then 0
    else
      var here := 1 + Level(g, o, IndexOf(o[..i], ds[0]));
      var rest := MaxOver(g, o, i, ds[1..]);
      if here > rest then here else rest
  }

  lemma {:induction false} MaxOverIsMax(g: seq<Node>, o: seq<string>, i: nat, ds: seq<string>)
    requires Ranked(g, o) && i <= |o| && forall d :: d in ds ==> d in o[..i]
    ensures forall d :: d in ds ==> Level(g, o, IndexOf(o[..i], d)) < MaxOver(g, o, i, ds)
    ensures ds != [] ==> exists d :: d in ds && MaxOver(g, o, i, ds) == 1 + Level(g, o, IndexOf(o[..i], d))
    decreases ds
  {
    if ds != [] {
      assert ds == [ds[0]] + ds[1..];
      MaxOverIsMax(g, o, i, ds[1..]);
    }
  }

  /** A step lies strictly above each of its dependencies. */
  lemma LevelAbove(g: seq<Node>, o: seq<string>, i: nat, d: string) returns (j: nat)
    requires Ranked(g, o) && i < |o| && DependsOn(g, o[i], d)
    ensures j < i && o[j] == d && Level(g, o, j) < Level(g, o, i)
    ensures forall k :: 0 <= k < j ==> o[k] != d
  {
    assert o[i] in o;
    DepsOfIsDependsOn(g, o[i], d);
    MaxOverIsMax(g, o, i, DepsOf(g, o[i]));
    j := IndexOf(o[..i], d);
    assert forall k :: 0 <= k < j ==> o[..i][k] == o[k];
  }

  /** And immediately above one of them, unless it has none. */
  lemma LevelWitness(g: seq<Node>, o: seq<string>, i: nat) returns (j: nat)
    requires Ranked(g, o) && i < |o| && Level(g, o, i) > 0
    ensures j < i && DependsOn(g, o[i], o[j]) && Level(g, o, i) == 1 + Level(g, o, j)
  {
    assert o[i] in o;
    var ds := DepsOf(g, o[i]);
    MaxOverIsMax(g, o, i, ds);
    var d :| d in ds && Level(g, o, i) == 1 + Level(g, o, IndexOf(o[..i], d));
    DepsOfIsDependsOn(g, o[i], d);
    j := IndexOf(o[..i], d);
  }

  // ----- Level is the length of the longest chain -----

  lemma {:induction false} ChainNoLonger(g: seq<Node>, o: seq<string>, i: nat, p: seq<string>)
    requires Ranked(g, o) && Distinct(o) && i < |o|
    requires p != [] && Walk(g, p) && p[0] == o[i]
    ensures |p| <= Level(g, o, i) + 1
    decreases |p|
  {
    if |p| > 1 {
      var j := LevelAbove(g, o, i, p[1]);
      var t := p[1..];
      forall k | 0 <= k < |t| - 1 ensures DependsOn(g, t[k], t[k+1]) { assert t[k] == p[k+1] && t[k+1] == p[k+2]; }
      ChainNoLonger(g, o, j, t);
    }
  }

  lemma {:induction false} ChainAttains(g: seq<Node>, o: seq<string>, i: nat) returns (p: seq<string>)
    requires Ranked(g, o) && i < |o|
    ensures |p| == Level(g, o, i) + 1 && Walk(g, p) && p[0] == o[i]
    decreases i
  {
    if Level(g, o, i) == 0 {
      p := [o[i]];
    } else {
      var j := LevelWitness(g, o, i);
      var t := ChainAttains(g, o, j);
      p := [o[i]] + t;
    }
  }

  // ----- Levels never decrease along Kahn's order -----

  function Seen(g: seq<Node>, n: nat): seq<string> {
    After(g, n).ordered + After(g, n).queue
  }

  lemma {:induction false} SeenGrows(g: seq<Node>, n: nat, m: nat)
    requires DistinctIds(g) && n <= m
    ensures Seen(g, n) <= Seen(g, m)
    decreases m
  {
    if n < m {
      SeenGrows(g, n, m - 1);
      QueuedOnce(g, m - 1);
    }
  }

  lemma OrderIsSeen(g: seq<Node>, n: nat)
    requires DistinctIds(g) && n <= |g|
    ensures Seen(g, n) <= TopologicalOrder(g) == Seen(g, |g|)
  {
    QueueRunsDry(g);
    SeenGrows(g, n, |g|);
  }

  /** The queue holds at most two neighbouring levels, in order. */
  ghost predicate Levelled(g: seq<Node>, o: seq<string>, s: State)
    requires Ranked(g, o)
  {
    var m, k := |s.ordered|, |s.ordered| + |s.queue|;
    && s.ordered + s.queue <= o
    && (forall a, b :: 0 <= a <= b < k ==> Level(g, o, a) <= Level(g, o, b))
    && (forall b :: m <= b < k ==> Level(g, o, b) <= Level(g, o, m) + 1)
    && (m == 0 ==> forall b :: 0 <= b < k ==> Level(g, o, b) == 0)
  }

  /** A step released by c sits exactly one level above c. */
  lemma ReleasedLevel(g: seq<Node>, o: seq<string>, s: State, b: nat)
    requires Valid(g) && Ranked(g, o) && Distinct(o) && Inv(g, s) && s.queue != [] && Levelled(g, o, s)
    requires |s.ordered| + |s.queue| <= b < |o| && DependsOn(g, o[b], s.queue[0])
    requires forall d :: DependsOn(g, o[b], d) ==> d in s.ordered + [s.queue[0]]
    ensures Level(g, o, b) == Level(g, o, |s.ordered|) + 1
  {
    var m := |s.ordered|;
    assert (s.ordered + s.queue)[m] == o[m] == s.queue[0];
    var j := LevelAbove(g, o, b, o[m]);
    assert j == m;
    var w := LevelWitness(g, o, b);
    assert o[w] in s.ordered + [s.queue[0]];
    var v := IndexOf(s.ordered + [s.queue[0]], o[w]);
    assert o[v] == (s.ordered + s.queue)[v];
    assert v == w <= m;
  }

  /** What the ids released by one turn have in common. */
  lemma ReleasedDeps(g: seq<Node>, s: State, i: nat)
    requires DistinctIds(g) && Inv(g, s) && s.queue != [] && i < |g|
    requires s.queue[0] in g[i].deps
    requires g[i].id in Step(g, s).inDegree && Step(g, s).inDegree[g[i].id] == 0
    ensures DependsOn(g, g[i].id, s.queue[0])
    ensures forall d :: DependsOn(g, g[i].id, d) ==> d in s.ordered + [s.queue[0]]
  {
    StepKeepsInv(g, s);
    assert DegreeOk(g[i], Step(g, s));
    PendingZero(g[i].deps, s.ordered + [s.queue[0]]);
  }

  lemma LevelledStep(g: seq<Node>, o: seq<string>, s: State, s': State)
    requires Valid(g) && Ranked(g, o) && Distinct(o) && Inv(g, s) && s.queue != [] && Levelled(g, o, s)
    requires s' == Step(g, s) && s'.ordered + s'.queue <= o
    ensures Levelled(g, o, s')
  {
    var m, k := |s.ordered|, |s.ordered| + |s.queue|;
    var ready := StepEffect(g, s);
    var k' := |s'.ordered| + |s'.queue|;
    forall b | k <= b < k' ensures Level(g, o, b) == Level(g, o, m) + 1 {
      var x := ready[b-k];
      assert o[b] == (s'.ordered + s'.queue)[b] == x;
      var i := IndexOf(Ids(g), x);
      assert g[i].id == x && x in ready;
      assert DegreeOk(g[i], s);
      ReleasedDeps(g, s, i);
      ReleasedLevel(g, o, s, b);
    }
  }

  lemma LevelledStart(g: seq<Node>, o: seq<string>)
    requires DistinctIds(g) && Ranked(g, o) && Start(g).queue <= o
    ensures Levelled(g, o, Start(g))
  {
    RootsShape(g);
    var q := Roots(g);
    assert [] + q == q;
    forall b | 0 <= b < |q| ensures Level(g, o, b) == 0 {
      assert q[b] in q && o[b] == q[b];
      var k := IndexOf(Ids(g), q[b]);
      assert g[k].id == q[b];
    }
  }

  lemma LevelledFirst(g: seq<Node>, o: seq<string>)
    requires Valid(g) && Ranked(g, o) && o == TopologicalOrder(g)
    ensures Levelled(g, o, After(g, 0))
  {
    OrderIsSeen(g, 0);
    LevelledStart(g, o);
  }

  lemma LevelledNext(g: seq<Node>, o: seq<string>, n: nat)
    requires Valid(g) && n < |g| && Ranked(g, o) && Distinct(o) && o == TopologicalOrder(g)
    requires Levelled(g, o, After(g, n))
    ensures Levelled(g, o, After(g, n + 1))
  {
    var s := After(g, n);
    OrderIsSeen(g, n + 1);
    if s.queue != [] {
      AfterInv(g, n);
      LevelledStep(g, o, s, Step(g, s));
    }
  }

  lemma {:induction false} LevelledAfter(g: seq<Node>, o: seq<string>, n: nat)
    requires Valid(g) && n <= |g| && Ranked(g, o) && Distinct(o) && o == TopologicalOrder(g)
    ensures Levelled(g, o, After(g, n))
  {
    if n == 0 {
      LevelledFirst(g, o);
    } else {
      LevelledAfter(g, o, n - 1);
      LevelledNext(g, o, n - 1);
    }
  }

  lemma OrderIsRanked(g: seq<Node>)
    requires Valid(g)
    ensures Ranked(g, TopologicalOrder(g))
  {
    AfterInv(g, |g|);
    QueueRunsDry(g);
    assert Seen(g, |g|) == TopologicalOrder(g);
    OrderIsPermutation(g);
  }

  /** FIFO order is sorted by depth: whatever dependency chain hangs below an earlier step, a chain
      at least as long hangs below every later one. */
  lemma DepthNeverDecreases(g: seq<Node>, i: nat, j: nat, p: seq<string>) returns (q: seq<string>)
    requires Valid(g) && i <= j < |TopologicalOrder(g)|
    requires p != [] && Walk(g, p) && p[0] == TopologicalOrder(g)[i]
    ensures |q| >= |p| && Walk(g, q) && q[0] == TopologicalOrder(g)[j]
  {
    var o := TopologicalOrder(g);
    OrderIsRanked(g);
    OrderIsPermutation(g);
    LevelledAfter(g, o, |g|);
    QueueRunsDry(g);
    ChainNoLonger(g, o, i, p);
    q := ChainAttains(g, o, j);
  }

  // ----- Chains -----

  /** Each step depends on exactly the one before it: the shape every built plan has. */
  ghost predicate IsChain(g: seq<Node>) {
    && DistinctIds(g)
    && (g != [] ==> g[0].deps == [])
    && (forall i, j :: 0 <= i < |g| && 0 <= j < |g| && j == i + 1 ==> g[j].deps == [g[i].id])
  }

  lemma ChainDepsFirst(g: seq<Node>)
    requires IsChain(g)
    ensures DepsFirst(g, Ids(g)) && Valid(g)
  {
    var o := Ids(g);
    forall i, d | 0 <= i < |o| && DependsOn(g, o[i], d) ensures d in o[..i] {
      var k :| 0 <= k < |g| && g[k].id == o[i] && d in g[k].deps;
      assert k == i && g[i].deps != [];
      assert i > 0 && d == g[i-1].id && o[..i][i-1] == d;
    }
    forall i, d | 0 <= i < |g| && d in g[i].deps ensures d in o {
      assert g[i].deps != [];
      assert i > 0 && d == g[i-1].id && o[i-1] == d;
    }
    forall i | 0 <= i < |g| ensures g[i].id in o { assert o[i] == g[i].id; }
    DepsFirstAcyclic(g, o);
  }

  /** In a dependency-first order, the k-th step of a chain is not before place k. */
  lemma {:induction false} ChainNotEarlier(g: seq<Node>, o: seq<string>, k: nat, i: nat)
    requires IsChain(g) && DepsFirst(g, o) && k < |g| && i < |o| && o[i] == g[k].id
    ensures k <= i
    decreases k
  {
    if k > 0 {
      assert DependsOn(g, g[k].id, g[k-1].id);
      assert g[k-1].id in o[..i];
      ChainNotEarlier(g, o, k - 1, IndexOf(o[..i], g[k-1].id));
    }
  }

  /** Nor after it: the steps behind it need the places behind it. */
  lemma {:induction false} ChainNotLater(g: seq<Node>, o: seq<string>, k: nat, i: nat)
    requires IsChain(g) && DepsFirst(g, o) && Distinct(o) && |o| == |g|
    requires forall j :: 0 <= j < |g| ==> g[j].id in o
    requires k < |g| && i < |o| && o[i] == g[k].id
    ensures i <= k
    decreases |g| - k
  {
    if k + 1 < |g| {
      var j := IndexOf(o, g[k+1].id);
      assert DependsOn(g, o[j], g[k].id);
      assert g[k].id in o[..j];
      var i' := IndexOf(o[..j], g[k].id);
      assert o[i'] == o[i];
      ChainNotLater(g, o, k + 1, j);
    }
  }

  /** The order of a chain is the chain. */
  lemma ChainOrder(g: seq<Node>)
    requires IsChain(g)
    ensures Valid(g) && TopologicalOrder(g) == Ids(g)
  {
    ChainDepsFirst(g);
    OrderIsPermutation(g);
    var o := TopologicalOrder(g);
    forall k | 0 <= k < |g| ensures g[k].id in o {
      assert Ids(g)[k] == g[k].id;
      assert g[k].id in multiset(o);
    }
    forall k | 0 <= k < |g| ensures o[k] == Ids(g)[k] {
      var i := IndexOf(o, g[k].id);
      ChainNotEarlier(g, o, k, i);
      ChainNotLater(g, o, k, i);
    }
  }
}
