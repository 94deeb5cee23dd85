/** The dependency graph of a plan: the depth-first validator and Kahn's ordering, both as the
    step-by-step algorithms they are, each proved against a specification. */
module PlanGraph {
  import opened Js

  /** The two fields of a step the graph algorithms read. */
  datatype Node = Node(id: string, deps: seq<string>)

  datatype GraphError =
    | DuplicateStepId(id: string)
    | DependencyCycle(path: seq<string>)
    | MissingDependency(stepId: string, depId: string)

  function Ids(g: seq<Node>): seq<string> {
    seq(|g|, i requires 0 <= i < |g| => g[i].id)
  }

  ghost predicate DistinctIds(g: seq<Node>) {
    forall i, j :: 0 <= i < j < |g| ==> g[i].id != g[j].id
  }

  /** Step a lists step b among its dependencies. */
  ghost predicate DependsOn(g: seq<Node>, a: string, b: string) {
    exists i :: 0 <= i < |g| && g[i].id == a && b in g[i].deps
  }

  ghost predicate Complete(g: seq<Node>) {
    forall i, d :: 0 <= i < |g| && d in g[i].deps ==> d in Ids(g)
  }

  /** A walk along dependencies: each element depends on the next. */
  ghost predicate Walk(g: seq<Node>, p: seq<string>) {
    forall i :: 0 <= i < |p| - 1 ==> DependsOn(g, p[i], p[i+1])
  }

  ghost predicate ClosedPath(g: seq<Node>, p: seq<string>) {
    |p| >= 2 && p[0] == p[|p|-1] && Walk(g, p)
  }

  ghost predicate Acyclic(g: seq<Node>) {
    forall p :: !ClosedPath(g, p)
  }

  ghost predicate Valid(g: seq<Node>) {
    DistinctIds(g) && Complete(g) && Acyclic(g)
  }

  // ----- Orders that put dependencies first -----

  /** Everything in the list comes after all its dependencies. */
  ghost predicate DepsFirst(g: seq<Node>, o: seq<string>) {
    forall i, d :: 0 <= i < |o| && DependsOn(g, o[i], d) ==> d in o[..i]
  }

  /** Following a walk moves strictly towards the front of such a list. */
  lemma {:induction false} WalkDescends(g: seq<Node>, o: seq<string>, p: seq<string>, k: nat, i: nat) returns (j: nat)
    requires DepsFirst(g, o) && Walk(g, p) && k < |p| && i < |o| && o[i] == p[0]
    ensures j < |o| && o[j] == p[k] && j + k <= i
  {
    if k == 0 {
      j := i;
    } else {
      var m := WalkDescends(g, o, p, k - 1, i);
      assert DependsOn(g, p[k-1], p[k]);
      assert p[k] in o[..m];
      j := IndexOf(o[..m], p[k]);
    }
  }

  /** Soundness of the depth-first check: a dependency-first listing of all steps excludes cycles. */
  lemma DepsFirstAcyclic(g: seq<Node>, o: seq<string>)
    requires DepsFirst(g, o) && Distinct(o)
    requires forall i :: 0 <= i < |g| ==> g[i].id in o
    ensures Acyclic(g)
  {
    forall p ensures !ClosedPath(g, p) {
      if ClosedPath(g, p) {
        assert DependsOn(g, p[0], p[1]);
        var i := IndexOf(o, p[0]);
        var j := WalkDescends(g, o, p, |p| - 1, i);
        assert false;
      }
    }
  }

  /** Transitive dependencies precede a step too. */
  lemma TransitiveDepsFirst(g: seq<Node>, o: seq<string>, p: seq<string>, i: nat)
    requires DepsFirst(g, o) && Walk(g, p) && |p| >= 2 && i < |o| && o[i] == p[0]
    ensures p[|p|-1] in o[..i]
  {
    var j := WalkDescends(g, o, p, |p| - 1, i);
    assert o[..i][j] == p[|p|-1];
  }

  // ----- The depth-first cycle check -----

  function DepsOf(g: seq<Node>, id: string): seq<string>
    requires id in Ids(g)
  {
    g[IndexOf(Ids(g), id)].deps
  }

  lemma DepsOfIsDependsOn(g: seq<Node>, id: string, d: string)
    requires DistinctIds(g) && id in Ids(g)
    ensures d in DepsOf(g, id) <==> DependsOn(g, id, d)
  {
    var k := IndexOf(Ids(g), id);
    assert g[k].id == id;
  }

  /** The closure state of checkCycle: visiting and visited sets, the path stack, the adjacency map. */
  class CycleCheck {
    ghost const g: seq<Node>
    const adj: map<string, seq<string>>
    var visiting: set<string>
    var visited: set<string>
    var path: seq<string>
    ghost var finished: seq<string>   // visited ids in the order they were finished

    ghost predicate AdjacencyOk() {
      && DistinctIds(g) && Complete(g)
      && (forall id :: id in adj <==> id in Ids(g))
      && (forall id :: id in adj ==> adj[id] == DepsOf(g, id))
    }

    ghost predicate StackOk()
      reads this
    {
      && (forall x :: x in visiting <==> x in path)
      && Distinct(path) && Walk(g, path)
      && visiting <= adj.Keys && visited <= adj.Keys && visiting !! visited
    }

    /** Ids neither on the stack nor finished: what the recursion uses up. */
    ghost function Open(): set<string>
      reads this
    {
      adj.Keys - visiting - visited
    }

    ghost predicate FinishedOk()
      reads this
    {
      (forall x :: x in visited <==> x in finished) && Distinct(finished) && DepsFirst(g, finished)
    }

    ghost predicate Valid()
      reads this
    {
      AdjacencyOk() && StackOk() && FinishedOk()
    }

    constructor (g: seq<Node>)
      requires DistinctIds(g) && Complete(g)
      ensures this.g == g && Valid() && visiting == {} && visited == {} && path == []
    {
      this.g := g;
      adj := map i | 0 <= i < |g| :: g[i].id := g[i].deps;
      visiting, visited, path, finished := {}, {}, [], [];
      new;
      forall id ensures id in adj <==> id in Ids(g) {
        if id in Ids(g) { var k := IndexOf(Ids(g), id); assert g[k].id == id; }
        if id in adj { var k :| 0 <= k < |g| && g[k].id == id; assert Ids(g)[k] == id; }
      }
      forall id | id in adj ensures adj[id] == DepsOf(g, id) {
        var k := IndexOf(Ids(g), id);
        assert g[k].id == id;
      }
    }

    method Check(node: string) returns (cycle: Option<seq<string>>)
      requires Valid()
      requires node in adj && node !in visiting && node !in visited
      requires path != [] ==> DependsOn(g, path[|path|-1], node)
      modifies this
      ensures cycle.Some? ==> ClosedPath(g, cycle.value)
      ensures cycle.None? ==>
        Valid() && path == old(path) && visiting == old(visiting) && visited >= old(visited) + {node}
      decreases Open(), 0
    {
      assert node in Open();
      Enter(node);
      cycle := CheckDependencies(node);
      if cycle.None? { Leave(node); }
    }

    /** The loop over a step's dependencies. */
    method CheckDependencies(node: string) returns (cycle: Option<seq<string>>)
      requires Valid() && path != [] && path[|path|-1] == node && node in adj
      modifies this
      ensures cycle.Some? ==> ClosedPath(g, cycle.value)
      ensures cycle.None? ==>
        && Valid() && path == old(path) && visiting == old(visiting) && visited >= old(visited)
        && forall d :: d in adj[node] ==> d in visited
      decreases Open(), 2
    {
      var deps := adj[node];
      for i := 0 to |deps|
        invariant Valid() && path == old(path) && visiting == old(visiting) && visited >= old(visited)
        invariant forall k :: 0 <= k < i ==> deps[k] in visited
      {
        DepsOfIsDependsOn(g, node, deps[i]);
        cycle := CheckDependency(deps[i]);
        if cycle.Some? { return; }
      }
      cycle := None;
    }

    /** The body of the loop over a step's dependencies. */
    method CheckDependency(dep: string) returns (cycle: Option<seq<string>>)
      requires Valid() && path != [] && DependsOn(g, path[|path|-1], dep)
      modifies this
      ensures cycle.Some? ==> ClosedPath(g, cycle.value)
      ensures cycle.None? ==>
        Valid() && path == old(path) && visiting == old(visiting) && visited >= old(visited) + {dep}
      decreases Open(), 1
    {
      cycle := None;
      if dep in visiting {
        cycle := Some(CyclePath(dep));
      } else if dep !in visited {
        assert dep in Ids(g);
        cycle := Check(dep);
      }
    }

    /** The stack from dep's place on, closed with dep. */
    function CyclePath(dep: string): (p: seq<string>)
      requires StackOk() && dep in path && DependsOn(g, path[|path|-1], dep)
      reads this
      ensures ClosedPath(g, p)
    {
      path[IndexOf(path, dep)..] + [dep]
    }

    method Enter(node: string)
      requires Valid()
      requires node in adj && node !in visiting && node !in visited
      requires path != [] ==> DependsOn(g, path[|path|-1], node)
      modifies this`path, this`visiting
      ensures Valid() && path == old(path) + [node] && visiting == old(visiting) + {node}
    {
      visiting := visiting + {node};
      path := path + [node];
    }

    method Leave(node: string)
      requires Valid() && path != [] && path[|path|-1] == node
      requires forall d :: d in adj[node] ==> d in visited
      modifies this
      ensures Valid() && path == old(path)[..|old(path)|-1]
      ensures visiting == old(visiting) - {node} && visited == old(visited) + {node}
    {
      assert path == path[..|path|-1] + [node];
      path := path[..|path|-1];
      visiting := visiting - {node};
      visited := visited + {node};
      ExtendFinished(finished, node);
      finished := finished + [node];
    }

    lemma ExtendFinished(done: seq<string>, node: string)
      requires AdjacencyOk() && DepsFirst(g, done) && node in adj
      requires forall d :: d in adj[node] ==> d in done
      ensures DepsFirst(g, done + [node])
    {
      var o := done + [node];
      forall i, d | 0 <= i < |o| && DependsOn(g, o[i], d) ensures d in o[..i] {
        if i < |done| {
          assert o[..i] == done[..i];
        } else {
          assert o[..i] == done;
          DepsOfIsDependsOn(g, node, d);
        }
      }
    }
  }

  method FindDuplicate(g: seq<Node>) returns (seen: set<string>, error: Option<GraphError>)
    ensures error.None? ==> DistinctIds(g) && forall d :: d in seen <==> d in Ids(g)
    ensures error.Some? ==>
      error.value.DuplicateStepId? && exists i, j :: 0 <= i < j < |g| && g[i].id == error.value.id == g[j].id
  {
    seen := {};
    for i := 0 to |g|
      invariant forall d :: d in seen <==> d in Ids(g)[..i]
      invariant DistinctIds(g[..i])
    {
      assert Ids(g)[..i+1] == Ids(g)[..i] + [g[i].id];
      if g[i].id in seen {
        ghost var k := IndexOf(Ids(g)[..i], g[i].id);
        assert g[k].id == g[i].id;
        return seen, Some(DuplicateStepId(g[i].id));
      }
      assert forall k :: 0 <= k < i ==> Ids(g)[..i][k] == g[k].id;
      seen := seen + {g[i].id};
    }
    assert g[..|g|] == g && Ids(g)[..|g|] == Ids(g);
    error := None;
  }

  method FindBadEdge(g: seq<Node>, seen: set<string>) returns (error: Option<GraphError>)
    requires forall d :: d in seen <==> d in Ids(g)
    ensures error.None? ==> Complete(g)
    ensures error.Some? ==> match error.value
      case MissingDependency(s, d) => DependsOn(g, s, d) && d !in Ids(g)
      case DependencyCycle(p) => ClosedPath(g, p)
      case DuplicateStepId(_) => false
  {
    for i := 0 to |g|
      invariant forall k, d :: 0 <= k < i && d in g[k].deps ==> d in seen
    {
      for j := 0 to |g[i].deps|
        invariant forall k :: 0 <= k < j ==> g[i].deps[k] in seen
      {
        var dep := g[i].deps[j];
        assert DependsOn(g, g[i].id, dep);
        if dep == g[i].id { return Some(DependencyCycle([dep, dep])); }
        if dep !in seen { return Some(MissingDependency(g[i].id, dep)); }
      }
    }
    error := None;
  }

  method FindCycle(g: seq<Node>) returns (cycle: Option<seq<string>>)
    requires DistinctIds(g) && Complete(g)
    ensures cycle.None? ==> Acyclic(g)
    ensures cycle.Some? ==> ClosedPath(g, cycle.value)
  {
    var check := new CycleCheck(g);
    for i := 0 to |g|
      invariant check.Valid() && check.path == [] && check.visiting == {} && check.g == g
      invariant forall k :: 0 <= k < i ==> g[k].id in check.visited
    {
      assert Ids(g)[i] == g[i].id;
      if g[i].id !in check.visited {
        cycle := check.Check(g[i].id);
        if cycle.Some? { return; }
      }
    }
    DepsFirstAcyclic(g, check.finished);
    cycle := None;
  }

  /** The validator accepts exactly the valid graphs, and each rejection names a real defect. */
  method ValidateDependencyGraph(g: seq<Node>) returns (error: Option<GraphError>)
    ensures error.None? <==> Valid(g)
    ensures error.Some? ==> match error.value
      case DuplicateStepId(id) => exists i, j :: 0 <= i < j < |g| && g[i].id == id == g[j].id
      case MissingDependency(s, d) => DistinctIds(g) && DependsOn(g, s, d) && d !in Ids(g)
      case DependencyCycle(p) => DistinctIds(g) && ClosedPath(g, p)
  {
    var seen: set<string>;
    seen, error := FindDuplicate(g);
    if error.Some? { return; }
    error := FindBadEdge(g, seen);
    if error.Some? { return; }
    var cycle := FindCycle(g);
    if cycle.Some? { return Some(DependencyCycle(cycle.value)); }
  }
}
