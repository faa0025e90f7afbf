/** The dependency checker of `scripts/check_context_drift.py`: a recursive depth-first search over
    two shared sets, and the closure rule that the gate registry adds to it. */
module DependencyGraph {

  type Node = string
  type Graph = map<Node, seq<Node>>

  /** How `require_acyclic_dependencies` ends: normally, or with one of its two `ValueError`s. */
  datatype Verdict = Accepted | CycleThrough(node: Node) | UnknownDependency(node: Node, missing: Node)

  ghost predicate Edge(g: Graph, a: Node, b: Node) {
    a in g && b in g[a]
  }

  ghost predicate Path(g: Graph, p: seq<Node>) {
    |p| >= 1 && forall i :: 0 <= i < |p| - 1 ==> Edge(g, p[i], p[i + 1])
  }

  /** Some non-empty walk along dependencies leads from `n` back to `n`. */
  ghost predicate OnCycle(g: Graph, n: Node) {
    exists p: seq<Node> :: Path(g, p) && |p| >= 2 && p[0] == n && p[|p| - 1] == n
  }

  ghost predicate Closed(g: Graph) {
    forall a, b :: Edge(g, a, b) ==> b in g
  }

  ghost predicate WellFormed(g: Graph) {
    Closed(g) && forall n :: !OnCycle(g, n)
  }

  /** Every node of `done` stands after all of its dependencies. */
  ghost predicate DependenciesFirst(g: Graph, done: seq<Node>) {
    forall i :: 0 <= i < |done| ==> done[i] in g && forall d :: d in g[done[i]] ==> d in done[..i]
  }

  lemma {:induction false} WalkFallsBack(g: Graph, done: seq<Node>, p: seq<Node>, i: nat)
    requires DependenciesFirst(g, done) && Path(g, p)
    requires i < |done| && p[0] == done[i]
    ensures |p| >= 2 ==> p[|p| - 1] in done[..i]
    decreases |p|
  {
    if |p| >= 2 {
      assert Edge(g, p[0], p[1]);
      var j :| 0 <= j < i && done[j] == p[1];
      if |p| > 2 {
        assert forall k :: 0 <= k < |p[1..]| - 1 ==> Edge(g, p[1..][k], p[1..][k + 1]) by {
          forall k | 0 <= k < |p[1..]| - 1 ensures Edge(g, p[1..][k], p[1..][k + 1]) {
            assert Edge(g, p[k + 1], p[k + 2]);
          }
        }
        WalkFallsBack(g, done, p[1..], j);
        assert done[..j] <= done[..i];
      }
    }
  }

  /** A list of all nodes with dependencies first rules out every cycle and every unknown node. */
  lemma {:induction false} DependenciesFirstMeansWellFormed(g: Graph, done: seq<Node>)
    requires DependenciesFirst(g, done)
    requires forall n :: n in g ==> n in done
    ensures WellFormed(g)
  {
    forall a, b | Edge(g, a, b) ensures b in g {
      var i :| 0 <= i < |done| && done[i] == a;
      assert b in done[..i];
    }
    forall n ensures !OnCycle(g, n) {
      if OnCycle(g, n) {
        var p :| Path(g, p) && |p| >= 2 && p[0] == n && p[|p| - 1] == n;
        assert Edge(g, p[0], p[1]);
        var i := FirstIndex(done, n);
        WalkFallsBack(g, done, p, i);
      }
    }
  }

  lemma {:induction false} FirstIndex(s: seq<Node>, n: Node) returns (i: nat)
    requires n in s
    ensures i < |s| && s[i] == n && n !in s[..i]
  {
    if s[0] == n {
      i := 0;
    } else {
      var j := FirstIndex(s[1..], n);
      i := j + 1;
      assert s[..i] == [s[0]] + s[1..][..j];
    }
  }

  /** A node joins the list after its dependencies. */
  lemma FinishNode(g: Graph, done: seq<Node>, n: Node)
    requires DependenciesFirst(g, done) && n in g
    requires forall d :: d in g[n] ==> d in done
    ensures DependenciesFirst(g, done + [n])
  {
    var more := done + [n];
    assert forall i :: 0 <= i <= |done| ==> more[..i] == done[..i];
    assert done[..|done|] == done;
  }

  class Checker {
    const g: Graph
    var visiting: set<Node>
    var visited: set<Node>
    ghost var done: seq<Node>

    constructor (g: Graph)
      ensures this.g == g && Valid([])
      ensures visited == {}
    {
      this.g := g;
      visiting, visited, done := {}, {}, [];
    }

    /** `trail` is the chain of open calls; the two sets are what those calls have recorded. */
    ghost predicate Valid(trail: seq<Node>)
      reads this
    {
      && visiting == (set n | n in trail) && visiting !! visited
      && visited == (set n | n in done) && visiting + visited <= g.Keys
      && DependenciesFirst(g, done)
    }

    method Visit(item: Node, ghost trail: seq<Node>) returns (v: Verdict)
      requires item in g && Valid(trail) && Path(g, trail + [item])
      modifies this
      ensures v.Accepted? ==> Valid(trail) && visiting == old(visiting)
      ensures v.Accepted? ==> item in visited && old(visited) <= visited
      ensures v.CycleThrough? ==> OnCycle(g, v.node)
      ensures v.UnknownDependency? ==> Edge(g, v.node, v.missing) && v.missing !in g
      decreases g.Keys - visiting - visited
    {
      if item in visiting {
        CloseTheLoop(g, trail, item);
        return CycleThrough(item);
      }
      if item in visited {
        return Accepted;
      }
      visiting := visiting + {item};
      ghost var open := trail + [item];
      var i := 0;
      while i < |g[item]|
        invariant 0 <= i <= |g[item]|
        invariant Valid(open) && visiting == old(visiting) + {item} && item !in visited
        invariant old(visited) <= visited
        invariant forall d :: d in g[item][..i] ==> d in visited
      {
        var dependency := g[item][i];
        assert Edge(g, item, dependency);
        if dependency !in g {
          return UnknownDependency(item, dependency);
        }
        assert item in old(g.Keys - visiting - visited);
        assert g.Keys - visiting - visited <= old(g.Keys - visiting - visited) - {item};
        var inner := Visit(dependency, open);
        if !inner.Accepted? {
          return inner;
        }
        assert g[item][..i + 1] == g[item][..i] + [dependency];
        i := i + 1;
      }
      assert g[item][..i] == g[item];
      FinishNode(g, done, item);
      visiting := visiting - {item};
      visited := visited + {item};
      done := done + [item];
      return Accepted;
    }
  }

  lemma CloseTheLoop(g: Graph, trail: seq<Node>, item: Node)
    requires Path(g, trail + [item]) && item in trail
    ensures OnCycle(g, item)
  {
    var i :| 0 <= i < |trail| && trail[i] == item;
    var p := (trail + [item])[i..];
    forall k | 0 <= k < |p| - 1 ensures Edge(g, p[k], p[k + 1]) {
      assert Edge(g, (trail + [item])[i + k], (trail + [item])[i + k + 1]);
    }
    assert Path(g, p);
  }

  /** `require_acyclic_dependencies`; `keys` is the dictionary's own iteration order. */
  method RequireAcyclic(g: Graph, keys: seq<Node>) returns (v: Verdict)
    requires forall n :: n in keys <==> n in g
    ensures v.Accepted? <==> WellFormed(g)
    ensures v.CycleThrough? ==> OnCycle(g, v.node)
    ensures v.UnknownDependency? ==> Edge(g, v.node, v.missing) && v.missing !in g
  {
    var checker := new Checker(g);
    var i := 0;
    while i < |keys|
      invariant 0 <= i <= |keys| && checker.g == g && checker.Valid([])
      invariant forall n :: n in keys[..i] ==> n in checker.visited
    {
      assert Path(g, [] + [keys[i]]);
      v := checker.Visit(keys[i], []);
      if !v.Accepted? {
        return;
      }
      assert keys[..i + 1] == keys[..i] + [keys[i]];
      i := i + 1;
    }
    assert keys[..i] == keys;
    DependenciesFirstMeansWellFormed(g, checker.done);
    return Accepted;
  }

  /** The registry asks each capability's gate list to hold its gates' direct dependencies; that is
      enough to hold everything those gates depend on, however far down. */
  lemma {:induction false} DirectClosureIsTransitive(g: Graph, required: set<Node>, p: seq<Node>)
    requires required <= g.Keys
    requires forall n, d :: n in required && d in g[n] ==> d in required
    requires Path(g, p) && p[0] in required
    ensures p[|p| - 1] in required
    decreases |p|
  {
    if |p| > 1 {
      assert Edge(g, p[0], p[1]);
      forall k | 0 <= k < |p[1..]| - 1 ensures Edge(g, p[1..][k], p[1..][k + 1]) {
        assert Edge(g, p[k + 1], p[k + 2]);
      }
      DirectClosureIsTransitive(g, required, p[1..]);
    }
  }

  predicate Distinct(gates: seq<Node>) {
    forall i, j :: 0 <= i < j < |gates| ==> gates[i] != gates[j]
  }

  /** Every walk along dependencies from one of the gates ends at one of them. */
  ghost predicate HoldsAllDependencies(g: Graph, gates: seq<Node>) {
    forall p: seq<Node> :: Path(g, p) && p[0] in gates ==> p[|p| - 1] in gates
  }

  /** One capability's gate list in `validate_gate_registry`: the check of direct dependencies accepts
      exactly the lists that leave out nothing their gates depend on. */
  method CheckCapability(g: Graph, gates: seq<Node>) returns (ok: bool)
    ensures ok
            <==> gates != [] && Distinct(gates) && (forall n :: n in gates ==> n in g) && HoldsAllDependencies(g, gates)
  {
    if gates == [] || !Distinct(gates) || (exists n :: n in gates && n !in g) {
      return false;
    }
    for i := 0 to |gates|
      invariant forall n, d :: n in gates[..i] && d in g[n] ==> d in gates
    {
      if exists d :: d in g[gates[i]] && d !in gates {
        ghost var d :| d in g[gates[i]] && d !in gates;
        assert Path(g, [gates[i], d]) by { assert Edge(g, gates[i], d); }
        return false;
      }
      assert gates[..i + 1] == gates[..i] + [gates[i]];
    }
    assert gates[..|gates|] == gates;
    var required := set n | n in gates;
    forall p: seq<Node> | Path(g, p) && p[0] in gates ensures p[|p| - 1] in gates {
      DirectClosureIsTransitive(g, required, p);
    }
    return true;
  }
}
