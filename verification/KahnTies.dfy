/** Which of two steps comes first in getTopologicalOrder, for every two steps of every valid graph: the
    one whose last dependency comes first, and of two with the same last dependency the one listed first. */
module KahnTies {
  import opened Js
  import opened PlanGraph
  import opened KahnOrder

  function PlaceIn(g: seq<Node>, x: string): (k: nat)
    requires x in Ids(g)
    ensures k < |g| && g[k].id == x
  {
    IndexOf(Ids(g), x)
  }

  /** The place of the last of these in the order; -1 if there are none. */
  function LastPlace(deps: seq<string>, order: seq<string>): (r: int)
    requires forall d :: d in deps ==> d in order
    ensures -1 <= r < |order|
    ensures r == -1 <==> deps == []
    ensures forall d :: d in deps ==> IndexOf(order, d) <= r
    ensures deps != [] ==> exists d :: d in deps && IndexOf(order, d) == r
  {
    if deps == [] then -1
    else
      var rest, last := LastPlace(deps[..|deps|-1], order), deps[|deps|-1];
      assert deps == deps[..|deps|-1] + [last];
      if IndexOf(order, last) > rest then IndexOf(order, last) else rest
  }

  /** Released first, or at the same time and listed first. */
  predicate Sooner(g: seq<Node>, order: seq<string>, i: nat, j: nat)
    requires i < |g| && j < |g|
    requires forall d :: d in g[i].deps + g[j].deps ==> d in order
  {
    var a, b := LastPlace(g[i].deps, order), LastPlace(g[j].deps, order);
    a < b || (a == b && i < j)
  }

  // ----- Dependents and roots are in listing order -----

  ghost predicate Listed(g: seq<Node>, xs: seq<string>, n: nat) {
    && (forall k :: 0 <= k < |xs| ==> xs[k] in Ids(g) && PlaceIn(g, xs[k]) < n)
    && (forall i, j :: 0 <= i < j < |xs| ==> PlaceIn(g, xs[i]) <= PlaceIn(g, xs[j]))
  }

  lemma PlaceOfNode(g: seq<Node>, k: nat)
    requires DistinctIds(g) && k < |g|
    ensures g[k].id in Ids(g) && PlaceIn(g, g[k].id) == k
  {
    assert Ids(g)[k] == g[k].id;
  }

  lemma ListedMore(g: seq<Node>, xs: seq<string>, ys: seq<string>, n: nat)
    requires DistinctIds(g) && n < |g| && Listed(g, xs, n) && forall k :: 0 <= k < |ys| ==> ys[k] == g[n].id
    ensures Listed(g, xs + ys, n + 1)
  {
    PlaceOfNode(g, n);
  }

  lemma {:induction false} DependentsListed(g: seq<Node>, c: string, n: nat)
    requires DistinctIds(g) && n <= |g|
    ensures Listed(g, Dependents(g[..n], c), n)
  {
    if n > 0 {
      DependentsListed(g, c, n - 1);
      assert g[..n][..n-1] == g[..n-1];
      ListedMore(g, Dependents(g[..n-1], c), Repeat(g[n-1].id, multiset(g[n-1].deps)[c]), n - 1);
    }
  }

  lemma {:induction false} RootsListed(g: seq<Node>, n: nat)
    requires DistinctIds(g) && n <= |g|
    ensures Listed(g, Roots(g[..n]), n)
  {
    if n > 0 {
      RootsListed(g, n - 1);
      assert g[..n][..n-1] == g[..n-1];
      ListedMore(g, Roots(g[..n-1]), if g[n-1].deps == [] then [g[n-1].id] else [], n - 1);
    }
  }

  lemma LaterPlaces(g: seq<Node>, ds: seq<string>, more: seq<string>)
    requires Listed(g, ds, |g|) && ds != [] && forall k :: 0 <= k < |more| ==> more[k] in ds[1..]
    ensures forall k :: 0 <= k < |more| ==> more[k] in Ids(g) && PlaceIn(g, ds[0]) <= PlaceIn(g, more[k])
  {
    forall k | 0 <= k < |more| ensures more[k] in Ids(g) && PlaceIn(g, ds[0]) <= PlaceIn(g, more[k]) {
      var m := IndexOf(ds[1..], more[k]);
      assert ds[m+1] == more[k];
    }
  }

  lemma ListedAfter(g: seq<Node>, d: string, more: seq<string>)
    requires d in Ids(g) && Listed(g, more, |g|) && forall k :: 0 <= k < |more| ==> PlaceIn(g, d) <= PlaceIn(g, more[k])
    ensures Listed(g, [d] + more, |g|)
  {
  }

  lemma ListedTail(g: seq<Node>, ds: seq<string>)
    requires Listed(g, ds, |g|) && ds != []
    ensures Listed(g, ds[1..], |g|) && ds[0] in Ids(g)
  {
  }

  /** What a relaxation queues, it queues in the order of its list. */
  lemma {:induction false} RelaxKeepsListing(g: seq<Node>, ds: seq<string>, deg: map<string, int>, q: seq<string>) returns (more: seq<string>)
    requires Listed(g, ds, |g|)
    ensures Relax(ds, deg, q).1 == q + more && Listed(g, more, |g|) && forall k :: 0 <= k < |more| ==> more[k] in ds
  {
    more := [];
    if ds != [] {
      var d := Decremented(deg, ds[0]);
      ListedTail(g, ds);
      var rest := RelaxKeepsListing(g, ds[1..], deg[ds[0] := d], if d == 0 then q + [ds[0]] else q);
      LaterPlaces(g, ds, rest);
      ListedAfter(g, ds[0], rest);
      more := if d == 0 then [ds[0]] + rest else rest;
      assert d == 0 ==> q + [ds[0]] + rest == q + more;
    }
  }

  // ----- The invariant -----

  /** Everything queued so far was released by a finished step, and stands in the order of release. */
  ghost predicate InReleaseOrder(g: seq<Node>, s: State) { AllAhead(g, s.ordered, s.ordered + s.queue) }

  ghost predicate AllAhead(g: seq<Node>, order: seq<string>, all: seq<string>) {
    && (forall k :: 0 <= k < |all| ==> Released(g, order, all[k]))
    && (forall i, j :: 0 <= i < j < |all| ==> Ahead(g, order, all[i], all[j]))
  }

  ghost predicate Released(g: seq<Node>, order: seq<string>, x: string) { x in Ids(g) && DepsDone(g[PlaceIn(g, x)], order) }

  /** Two released steps, the first of them sooner. */
  ghost predicate Ahead(g: seq<Node>, order: seq<string>, x: string, y: string) {
    Released(g, order, x) && Released(g, order, y) && Sooner(g, order, PlaceIn(g, x), PlaceIn(g, y))
  }

  /** Released by the turn for c itself. */
  ghost predicate ReadyAt(g: seq<Node>, order: seq<string>, c: string, x: string) {
    Released(g, order + [c], x) && c in g[PlaceIn(g, x)].deps
  }

  ghost predicate DepsDone(n: Node, order: seq<string>) { forall d :: d in n.deps ==> d in order }

  lemma {:induction false} LastPlaceKept(deps: seq<string>, order: seq<string>, c: string)
    requires forall d :: d in deps ==> d in order
    ensures LastPlace(deps, order + [c]) == LastPlace(deps, order)
  {
    if deps != [] {
      LastPlaceKept(deps[..|deps|-1], order, c);
      var last := deps[|deps|-1];
      PlaceKept(order, c, last);
    }
  }

  lemma PlaceKept(order: seq<string>, c: string, x: string)
    requires x in order
    ensures IndexOf(order + [c], x) == IndexOf(order, x)
  {
    var i, j := IndexOf(order + [c], x), IndexOf(order, x);
    assert (order + [c])[j] == order[j];
    assert i < |order| ==> (order + [c])[i] == order[i];
  }

  /** A step released by c itself has it as its last dependency. */
  lemma ReleasedNow(deps: seq<string>, order: seq<string>, c: string)
    requires c !in order && c in deps && forall d :: d in deps ==> d in order + [c]
    ensures LastPlace(deps, order + [c]) == |order|
  {
    assert forall i :: 0 <= i < |order| ==> (order + [c])[i] == order[i] != c;
  }

  lemma QueuedAreReleased(g: seq<Node>, s: State, x: string)
    requires DistinctIds(g) && Inv(g, s) && x in s.ordered + s.queue
    ensures x in Ids(g) && DepsDone(g[PlaceIn(g, x)], s.ordered)
  {
    var k := PlaceIn(g, x);
    assert DegreeOk(g[k], s);
    PendingZero(g[k].deps, s.ordered);
  }

  lemma RootNodes(g: seq<Node>, k: nat)
    requires DistinctIds(g) && k < |Roots(g)|
    ensures Roots(g)[k] in Ids(g) && g[PlaceIn(g, Roots(g)[k])].deps == []
  {
    RootsShape(g);
    assert g[PlaceIn(g, Roots(g)[k])].id in Roots(g);
  }

  lemma RootPairs(g: seq<Node>, i: nat, j: nat)
    requires DistinctIds(g) && i < j < |Roots(g)|
    ensures Roots(g)[i] in Ids(g) && Roots(g)[j] in Ids(g) && PlaceIn(g, Roots(g)[i]) < PlaceIn(g, Roots(g)[j])
  {
    RootsListed(g, |g|);
    assert g[..|g|] == g;
    RootsShape(g);
    assert Roots(g)[i] != Roots(g)[j];
  }

  lemma RootsInOrder(g: seq<Node>)
    requires DistinctIds(g)
    ensures InReleaseOrder(g, Start(g))
  {
    var all := Roots(g);
    assert Start(g).ordered + Start(g).queue == all;
    forall k | 0 <= k < |all| ensures all[k] in Ids(g) && g[PlaceIn(g, all[k])].deps == [] { RootNodes(g, k); }
    forall i, j | 0 <= i < j < |all| ensures Ahead(g, [], all[i], all[j]) {
      RootPairs(g, i, j);
      RootNodes(g, i);
      RootNodes(g, j);
    }
  }

  /** The ids a turn queues: each has the finished step among its dependencies, and they are in listing order. */
  lemma ReadyListed(g: seq<Node>, s: State, ready: seq<string>)
    requires DistinctIds(g) && s.queue != [] && Step(g, s).queue == s.queue[1..] + ready
    ensures Listed(g, ready, |g|)
  {
    DependentsListed(g, s.queue[0], |g|);
    assert g[..|g|] == g;
    var more := RelaxKeepsListing(g, Dependents(g, s.queue[0]), s.inDegree, s.queue[1..]);
    assert ready == Step(g, s).queue[|s.queue[1..]|..] == more;
  }

  lemma OldAhead(g: seq<Node>, order: seq<string>, c: string, x: string, y: string)
    requires Ahead(g, order, x, y)
    ensures Ahead(g, order + [c], x, y)
  {
    LastPlaceKept(g[PlaceIn(g, x)].deps, order, c);
    LastPlaceKept(g[PlaceIn(g, y)].deps, order, c);
  }

  lemma OldBeforeNew(g: seq<Node>, order: seq<string>, c: string, x: string, y: string)
    requires Released(g, order, x) && ReadyAt(g, order, c, y) && c !in order
    ensures Ahead(g, order + [c], x, y)
  {
    LastPlaceKept(g[PlaceIn(g, x)].deps, order, c);
    ReleasedNow(g[PlaceIn(g, y)].deps, order, c);
  }

  lemma NewAhead(g: seq<Node>, order: seq<string>, c: string, x: string, y: string)
    requires ReadyAt(g, order, c, x) && ReadyAt(g, order, c, y) && c !in order && PlaceIn(g, x) < PlaceIn(g, y)
    ensures Ahead(g, order + [c], x, y)
  {
    ReleasedNow(g[PlaceIn(g, x)].deps, order, c);
    ReleasedNow(g[PlaceIn(g, y)].deps, order, c);
  }

  /** One more turn: what was queued stays in order, and what c releases comes after it in listing order. */
  lemma AheadMore(g: seq<Node>, order: seq<string>, c: string, all: seq<string>, ready: seq<string>)
    requires AllAhead(g, order, all) && c !in order && Listed(g, ready, |g|) && Distinct(ready)
    requires forall k :: 0 <= k < |ready| ==> ReadyAt(g, order, c, ready[k])
    ensures AllAhead(g, order + [c], all + ready)
  {
    var both := all + ready;
    forall k | 0 <= k < |both| ensures Released(g, order + [c], both[k]) {
      if k < |all| { assert Released(g, order, all[k]); } else { assert ReadyAt(g, order, c, ready[k-|all|]); }
    }
    forall i, j | 0 <= i < j < |both| ensures Ahead(g, order + [c], both[i], both[j]) {
      if j < |all| {
        OldAhead(g, order, c, all[i], all[j]);
      } else if i < |all| {
        OldBeforeNew(g, order, c, all[i], ready[j-|all|]);
      } else {
        assert ready[i-|all|] != ready[j-|all|];
        NewAhead(g, order, c, ready[i-|all|], ready[j-|all|]);
      }
    }
  }

  /** What a turn queues has the finished step among its dependencies. */
  lemma ReadyDepend(g: seq<Node>, s: State) returns (ready: seq<string>)
    requires DistinctIds(g) && Inv(g, s) && s.queue != []
    ensures Step(g, s).queue == s.queue[1..] + ready && Distinct(ready)
    ensures forall k :: 0 <= k < |ready| ==> ready[k] in Ids(g) && s.queue[0] in g[PlaceIn(g, ready[k])].deps
  {
    ready := StepEffect(g, s);
    forall k | 0 <= k < |ready| ensures ready[k] in Ids(g) && s.queue[0] in g[PlaceIn(g, ready[k])].deps {
      assert g[PlaceIn(g, ready[k])].id in ready;
    }
  }

  lemma ReadyReleased(g: seq<Node>, s: State, before: seq<string>, ready: seq<string>)
    requires DistinctIds(g) && Inv(g, s) && s.ordered + s.queue == before + ready
    ensures forall k :: 0 <= k < |ready| ==> Released(g, s.ordered, ready[k])
  {
    forall k | 0 <= k < |ready| ensures Released(g, s.ordered, ready[k]) {
      assert (before + ready)[|before| + k] == ready[k];
      QueuedAreReleased(g, s, ready[k]);
    }
  }

  lemma TurnMoves(g: seq<Node>, s: State, ready: seq<string>)
    requires s.queue != [] && Step(g, s).queue == s.queue[1..] + ready
    ensures Step(g, s).ordered == s.ordered + [s.queue[0]]
    ensures Step(g, s).ordered + Step(g, s).queue == s.ordered + s.queue + ready
  {
    assert s.queue == [s.queue[0]] + s.queue[1..];
  }

  lemma TurnKeepsOrder(g: seq<Node>, s: State)
    requires DistinctIds(g) && Inv(g, s) && InReleaseOrder(g, s)
    ensures InReleaseOrder(g, Step(g, s))
  {
    if s.queue != [] {
      var ready := ReadyDepend(g, s);
      HeadNotDone(s.ordered, s.queue);
      ReadyListed(g, s, ready);
      StepKeepsInv(g, s);
      TurnMoves(g, s, ready);
      ReadyReleased(g, Step(g, s), s.ordered + s.queue, ready);
      AheadMore(g, s.ordered, s.queue[0], s.ordered + s.queue, ready);
    }
  }

  lemma {:induction false} AlwaysInOrder(g: seq<Node>, n: nat)
    requires DistinctIds(g)
    ensures InReleaseOrder(g, After(g, n))
  {
    if n == 0 {
      RootsInOrder(g);
    } else {
      AlwaysInOrder(g, n - 1);
      AfterInv(g, n - 1);
      TurnKeepsOrder(g, After(g, n - 1));
    }
  }

  /** The order, exactly: one step comes before another if and only if its last dependency comes first, or,
      with the same last dependency or none on either side, it is listed first. */
  lemma OrderExactly(g: seq<Node>, i: nat, j: nat)
    requires Valid(g) && i < |g| && j < |g|
    ensures var o := TopologicalOrder(g);
            && g[i].id in o && g[j].id in o && DepsDone(g[i], o) && DepsDone(g[j], o)
            && (IndexOf(o, g[i].id) < IndexOf(o, g[j].id) <==> Sooner(g, o, i, j))
  {
    var o := TopologicalOrder(g);
    AlwaysInOrder(g, |g|);
    QueueRunsDry(g);
    OrderIsPermutation(g);
    assert o + After(g, |g|).queue == o;
    InTheOrder(g, i);
    InTheOrder(g, j);
    var a, b := IndexOf(o, g[i].id), IndexOf(o, g[j].id);
    PlaceOfNode(g, i);
    PlaceOfNode(g, j);
    if a < b { assert Ahead(g, o, o[a], o[b]); }
    if b < a { assert Ahead(g, o, o[b], o[a]); }
  }

  lemma InTheOrder(g: seq<Node>, i: nat)
    requires Valid(g) && i < |g|
    ensures g[i].id in TopologicalOrder(g)
  {
    OrderIsPermutation(g);
    assert Ids(g)[i] == g[i].id;
    assert g[i].id in multiset(TopologicalOrder(g));
  }
}
