/** `check_cycles` of the workspace boundary checker: a depth-first search that carries its path
    and reports every way the path can close on itself. */
module DependencyCycles {
  import opened Finite

  type Node = string

  /** Declared dependencies; a target need not be a package of the graph. */
  type Graph = map<Node, set<Node>>

  function Targets(g: Graph, n: Node): set<Node> {
    if n in g then g[n] else {}
  }

  function Nodes(g: Graph): set<Node> {
    g.Keys + set n, t | n in g.Keys && t in g[n] :: t
  }

  ghost predicate Walk(g: Graph, q: seq<Node>, start: nat) {
    forall i, j :: start <= i && j == i + 1 < |q| ==> q[j] in Targets(g, q[i])
  }

  /** q continues the path along edges through new nodes and ends on a node it already has. */
  ghost predicate Closes(g: Graph, path: seq<Node>, q: seq<Node>) {
    && 0 < |path| < |q| && q[..|path|] == path
    && Walk(g, q, |path| - 1)
    && (forall i :: |path| <= i < |q| - 1 ==> q[i] !in q[..i])
    && q[|q| - 1] in q[..|q| - 1]
  }

  /** The reports that go through one given next target. */
  ghost predicate ClosesVia(g: Graph, path: seq<Node>, t: Node, q: seq<Node>) {
    if t in path then q == path + [t] else Closes(g, path + [t], q)
  }

  lemma ClosesByTarget(g: Graph, path: seq<Node>, q: seq<Node>)
    requires path != []
    ensures Closes(g, path, q) <==>
              exists t :: t in Targets(g, path[|path| - 1]) && ClosesVia(g, path, t, q)
  {
    var n := |path|;
    if Closes(g, path, q) {
      var t := q[n];
      assert t in Targets(g, q[n - 1]) && q[n - 1] == path[n - 1];
      assert q[..n + 1] == path + [t];
      assert |q| > n + 1 ==> q[n] !in q[..n];
      assert |q| == n + 1 ==> q[..|q| - 1] == path;
      if t in path {
        assert q == path + [t];
      } else {
        assert Closes(g, path + [t], q);
      }
      assert ClosesVia(g, path, t, q);
    }
    if t :| t in Targets(g, path[n - 1]) && ClosesVia(g, path, t, q) {
      if t in path {
        assert q[..n] == path;
      } else {
        assert q[..n + 1] == path + [t];
        assert q[..n] == q[..n + 1][..n] == path;
        assert q[n] == t && q[n - 1] == path[n - 1];
      }
    }
  }

  /** The search path is simple and stays inside the graph, which bounds its length. */
  ghost predicate PathOk(g: Graph, path: seq<Node>) {
    path != [] && Distinct(path) && forall n :: n in path ==> n in Nodes(g)
  }

  lemma Room(g: Graph, path: seq<Node>)
    requires PathOk(g, path)
    ensures |path| <= |Nodes(g)|
  {
    DistinctWithin(path, Nodes(g));
  }

  lemma Deeper(g: Graph, path: seq<Node>, t: Node)
    requires PathOk(g, path) && t in Targets(g, path[|path| - 1]) && t !in path
    ensures PathOk(g, path + [t]) && |path| < |Nodes(g)|
  {
    Room(g, path + [t]);
  }

  class CycleChecker {
    var violations: seq<seq<Node>>

    constructor ()
      ensures violations == []
    {
      violations := [];
    }

    /** `visit`: appends exactly the closing continuations of the path, and terminates because
        every deeper call has fewer nodes left off the path. */
    method Visit(g: Graph, path: seq<Node>)
      requires PathOk(g, path)
      modifies this
      ensures forall q :: q in violations <==> q in old(violations) || Closes(g, path, q)
      decreases |Nodes(g)| - |path|
    {
      var node := path[|path| - 1];
      var todo := Targets(g, node);
      while todo != {}
        invariant todo <= Targets(g, node)
        invariant forall q :: q in violations <==>
                    (q in old(violations) || exists t :: t in Targets(g, node) - todo && ClosesVia(g, path, t, q))
        decreases todo
      {
        var t :| t in todo;
        ghost var before := violations;
        if t in path {
          violations := violations + [path + [t]];
        } else {
          Deeper(g, path, t);
          Visit(g, path + [t]);
        }
        assert forall q :: q in violations <==> q in before || ClosesVia(g, path, t, q);
        assert Targets(g, node) - (todo - {t}) == (Targets(g, node) - todo) + {t};
        todo := todo - {t};
      }
      forall q
        ensures q in violations <==> q in old(violations) || Closes(g, path, q)
      {
        ClosesByTarget(g, path, q);
        assert Targets(g, node) - todo == Targets(g, node);
      }
    }

    /** `check_cycles`: the reported paths are exactly the simple walks from a package that run
        back into themselves, and there is one if and only if the graph has a cycle. */
    method CheckCycles(g: Graph)
      requires violations == []
      modifies this
      ensures forall q :: q in violations <==> exists p :: p in g && Closes(g, [p], q)
      ensures violations != [] <==> exists c :: IsCycle(g, c)
    {
      var todo := g.Keys;
      while todo != {}
        invariant todo <= g.Keys
        invariant forall q :: q in violations <==> exists p :: p in g.Keys - todo && Closes(g, [p], q)
        decreases todo
      {
        var p :| p in todo;
        Visit(g, [p]);
        assert g.Keys - (todo - {p}) == (g.Keys - todo) + {p};
        todo := todo - {p};
      }
      assert g.Keys - todo == g.Keys;
      ReportedIffCycle(g);
      assert violations != [] <==> exists q :: q in violations by {
        assert violations != [] ==> violations[0] in violations;
      }
      assert (exists q :: q in violations) <==> exists p, q :: p in g && Closes(g, [p], q) by {
        if p, q :| p in g && Closes(g, [p], q) {
          assert q in violations;
        }
      }
    }
  }

  // ----- reports and cycles -----

  ghost predicate IsCycle(g: Graph, c: seq<Node>) {
    |c| >= 2 && c[0] == c[|c| - 1] && Walk(g, c, 0)
  }

  /** Each reported path ends in a real cycle of the graph. */
  lemma ReportIsCycle(g: Graph, p: Node, q: seq<Node>) returns (i: nat)
    requires Closes(g, [p], q)
    ensures i < |q| - 1 && q[i] == q[|q| - 1] && IsCycle(g, q[i..])
  {
    i :| 0 <= i < |q| - 1 && q[..|q| - 1][i] == q[|q| - 1];
  }

  /** Each cycle without a repeated node is reported as it is, from its own first package. */
  lemma SimpleCycleIsReported(g: Graph, c: seq<Node>)
    requires IsCycle(g, c) && Distinct(c[..|c| - 1])
    ensures c[0] in g && Closes(g, [c[0]], c)
  {
    var front := c[..|c| - 1];
    assert c[1] in Targets(g, c[0]);
    assert c[..1] == [c[0]];
    forall i | 1 <= i < |c| - 1
      ensures c[i] !in c[..i]
    {
      assert forall k :: 0 <= k < i ==> front[k] != front[i];
    }
    assert front[0] == c[|c| - 1];
  }

  /** A package outside a cycle without repeated nodes depends on its first node. */
  ghost predicate LeadsInto(g: Graph, a: Node, c: seq<Node>) {
    IsCycle(g, c) && Distinct(c[..|c| - 1]) && a !in c && c[0] in Targets(g, a)
  }

  /** Such a package starts a report that is not a cycle: the cycle with the package before it. */
  lemma LeadInIsReported(g: Graph, a: Node, c: seq<Node>)
    requires LeadsInto(g, a, c)
    ensures a in g && Closes(g, [a], [a] + c) && !IsCycle(g, [a] + c)
  {
    var q, front := [a] + c, c[..|c| - 1];
    assert q[..1] == [a];
    assert q[..|q| - 1] == [a] + front;
    forall i, j | 0 <= i && j == i + 1 < |q|
      ensures q[j] in Targets(g, q[i])
    {
      assert i > 0 ==> c[i] in Targets(g, c[i - 1]);
    }
    forall i | 1 <= i < |q| - 1
      ensures q[i] !in q[..i]
    {
      assert forall k :: 0 <= k < i - 1 ==> front[k] != front[i - 1];
      assert q[..i] == [a] + front[..i - 1];
    }
    assert q[|q| - 1] == front[0];
  }

  lemma SimpleUpToEnd(g: Graph, p: Node, q: seq<Node>)
    requires Closes(g, [p], q)
    ensures Distinct(q[..|q| - 1])
  {
    var front := q[..|q| - 1];
    forall i, j | 0 <= i < j < |front|
      ensures front[i] != front[j]
    {
      assert q[j] !in q[..j];
      assert q[..j][i] == q[i];
    }
  }

  /** A report that is not a cycle consists of a path and a cycle that its last node leads into. */
  lemma ReportLeadsIn(g: Graph, p: Node, q: seq<Node>) returns (a: Node, c: seq<Node>)
    requires Closes(g, [p], q) && !IsCycle(g, q)
    ensures LeadsInto(g, a, c)
  {
    var i := ReportIsCycle(g, p, q);
    SimpleUpToEnd(g, p, q);
    assert q[0..] == q;
    var front := q[..|q| - 1];
    a, c := q[i - 1], q[i..];
    assert c[..|c| - 1] == front[i..];
    assert q[i] in Targets(g, q[i - 1]);
    assert forall k :: i <= k < |front| ==> front[i - 1] != front[k];
    assert c[|c| - 1] == front[i];
  }

  /** For every graph: all reported paths are cycles if and only if no package outside a cycle
      without repeated nodes depends on a node of it. */
  lemma ReportsAreCyclesIff(g: Graph)
    ensures (forall p, q :: p in g && Closes(g, [p], q) ==> IsCycle(g, q)) <==> !exists a, c :: LeadsInto(g, a, c)
  {
    if a, c :| LeadsInto(g, a, c) {
      LeadInIsReported(g, a, c);
    }
    if p, q :| p in g && Closes(g, [p], q) && !IsCycle(g, q) {
      var a, c := ReportLeadsIn(g, p, q);
      assert LeadsInto(g, a, c);
    }
  }

  /** Every node of the set has a target in the set. */
  ghost predicate Trap(g: Graph, nodes: set<Node>) {
    forall n {:trigger StaysIn(g, nodes, n)} :: n in nodes ==> StaysIn(g, nodes, n)
  }

  ghost predicate StaysIn(g: Graph, nodes: set<Node>, n: Node) {
    exists t :: t in nodes && t in Targets(g, n)
  }

  /** A simple path inside a trap has a continuation that closes. */
  lemma {:induction false} TrapCloses(g: Graph, nodes: set<Node>, path: seq<Node>) returns (q: seq<Node>)
    requires Trap(g, nodes) && PathOk(g, path) && path[|path| - 1] in nodes
    ensures Closes(g, path, q)
    decreases |Nodes(g)| - |path|
  {
    assert StaysIn(g, nodes, path[|path| - 1]);
    var t :| t in nodes && t in Targets(g, path[|path| - 1]);
    if t in path {
      q := path + [t];
    } else {
      Deeper(g, path, t);
      q := TrapCloses(g, nodes, path + [t]);
    }
    assert ClosesVia(g, path, t, q);
    ClosesByTarget(g, path, q);
  }

  lemma CycleIsTrap(g: Graph, c: seq<Node>)
    requires IsCycle(g, c)
    ensures Trap(g, set n | n in c) && c[0] in g
  {
    var nodes := set n | n in c;
    forall n | n in nodes
      ensures StaysIn(g, nodes, n)
    {
      var i :| 0 <= i < |c| && c[i] == n;
      if i + 1 < |c| {
        assert c[i + 1] in nodes && c[i + 1] in Targets(g, c[i]);
      } else {
        assert c[1] in nodes && c[1] in Targets(g, c[0]);
      }
    }
    assert c[1] in Targets(g, c[0]);
  }

  /** Soundness and completeness together: some package has a closing walk exactly when the
      declared graph has a cycle. */
  lemma ReportedIffCycle(g: Graph)
    ensures (exists p, q :: p in g && Closes(g, [p], q)) <==> exists c :: IsCycle(g, c)
  {
    if p, q :| p in g && Closes(g, [p], q) {
      var i := ReportIsCycle(g, p, q);
      assert IsCycle(g, q[i..]);
    }
    if c :| IsCycle(g, c) {
      CycleIsTrap(g, c);
      var q := TrapCloses(g, set n | n in c, [c[0]]);
      assert c[0] in g && Closes(g, [c[0]], q);
    }
  }
}
