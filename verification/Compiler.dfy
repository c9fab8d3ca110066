/**
 Compilation of a frozen task contract into the standard serial execution graph
 (compiler/execution.py): inspect, implement, one node per verifier, review and deliver, with
 a repair loop from every verifier and a review-fix loop from review.
 */
module Compiler {
  import opened Options
  import opened Graphs
  import opened Results
  import Ordering

  datatype Contract = Contract(frozen: bool, verifierIds: seq<string>, maxRepairIterations: nat)

  datatype Compilation = NotFrozen | Rejected | Compiled(graph: Plan)

  function AgentNode(id: Id): Node { Node(id, Agent, None) }

  function VerifyId(v: string): Id { "verify." + v }

  function VerifyNode(v: string): Node { Node(VerifyId(v), Verifier(false), None) }

  function Always(from: Id, to: Id): Edge { Edge(from, to, None, None) }

  function When(from: Id, to: Id, status: string, maxIterations: Option<nat>): Edge {
    Edge(from, to, Some(RouteCondition(ResultStatus, Equals(Text(status)))), maxIterations)
  }

  /** `contract.budget.max_repair_iterations or 1`. */
  function LoopBound(maxRepairIterations: nat): nat {
    if maxRepairIterations == 0 then 1 else maxRepairIterations
  }

  /** The k-th gate before delivery: the verifiers in order, then review. */
  function Gate(ids: seq<string>, k: nat): Id {
    if k < |ids| then VerifyId(ids[k]) else "review"
  }

  function VerifyNodes(ids: seq<string>): seq<Node> {
    seq(|ids|, i requires 0 <= i < |ids| => VerifyNode(ids[i]))
  }

  /** The two edges of each verifier, in verifier order. */
  function VerifyEdges(ids: seq<string>, bound: nat, n: nat): seq<Edge>
    requires n <= |ids|
  {
    if n == 0 then []
    else
      VerifyEdges(ids, bound, n - 1)
      + [When(VerifyId(ids[n - 1]), Gate(ids, n), "passed", None),
         When(VerifyId(ids[n - 1]), "repair", "failed", Some(bound))]
  }

  function CompiledGraph(ids: seq<string>, bound: nat): Plan {
    Plan(
      "inspect",
      [AgentNode("inspect"), AgentNode("implement")] + VerifyNodes(ids)
      + [AgentNode("repair"), AgentNode("review"), AgentNode("review_fix"), Node("deliver", Delivery, None)],
      [Always("inspect", "implement"), Always("implement", Gate(ids, 0))] + VerifyEdges(ids, bound, |ids|)
      + [Always("repair", Gate(ids, 0)),
         When("review", "deliver", "succeeded", None),
         When("review", "review_fix", "failed", Some(bound)),
         Always("review_fix", Gate(ids, 0))])
  }

  // ---- sorting the verifiers ----

  ghost predicate IsSorted(q: seq<string>) { forall i, j | 0 <= i < j < |q| :: !Ordering.Less(q[j], q[i]) }

  function Insert(x: string, q: seq<string>): (r: seq<string>)
    ensures multiset(r) == multiset(q) + multiset{x}
  {
    if q == [] || !Ordering.Less(q[0], x) then [x] + q
    else
      assert q == [q[0]] + q[1..];
      [q[0]] + Insert(x, q[1..])
  }

  /** Python's `sorted`. */
  function Sorted(q: seq<string>): (r: seq<string>)
    ensures multiset(r) == multiset(q)
  {
    if q == [] then []
    else
      assert q == [q[0]] + q[1..];
      Insert(q[0], Sorted(q[1..]))
  }

  lemma {:induction false} InsertIsSorted(x: string, q: seq<string>)
    requires IsSorted(q)
    ensures IsSorted(Insert(x, q))
  {
    var r := Insert(x, q);
    if q == [] {
    } else if !Ordering.Less(q[0], x) {
      forall j | 1 <= j < |r| ensures !Ordering.Less(r[j], x) {
        Ordering.LessIsTotal(q[0], x);
        if Ordering.Less(r[j], x) && j > 1 {
          assert r[j] == q[j - 1] && !Ordering.Less(q[j - 1], q[0]);
          Ordering.LessIsTotal(q[0], q[j - 1]);
          if q[0] != q[j - 1] { Ordering.LessIsTransitive(q[0], q[j - 1], x); }
        }
      }
    } else {
      var rest := Insert(x, q[1..]);
      InsertIsSorted(x, q[1..]);
      forall j | 1 <= j < |r| ensures !Ordering.Less(r[j], q[0]) {
        assert rest[j - 1] in multiset(rest);
        Ordering.LessIsTotal(q[0], x);
        if rest[j - 1] != x {
          assert rest[j - 1] in multiset(q[1..]);
          var k :| 0 <= k < |q[1..]| && q[1..][k] == rest[j - 1];
          assert q[k + 1] == rest[j - 1];
        }
      }
    }
  }

  lemma {:induction false} SortedIsSorted(q: seq<string>)
    ensures IsSorted(Sorted(q))
  {
    if q != [] {
      SortedIsSorted(q[1..]);
      InsertIsSorted(q[0], Sorted(q[1..]));
    }
  }

  ghost predicate IsDistinct(q: seq<string>) { forall i, j | 0 <= i < j < |q| :: q[i] != q[j] }

  /** Distinct verifiers are listed in the one strictly ascending order. */
  lemma SortedDistinctIsAscending(q: seq<string>)
    requires IsDistinct(Sorted(q))
    ensures Ordering.IsAscending(Sorted(q))
  {
    SortedIsSorted(q);
    var r := Sorted(q);
    forall i, j | 0 <= i < j < |r| ensures Ordering.Less(r[i], r[j]) { Ordering.LessIsTotal(r[i], r[j]); }
  }

  /** So the order in which a contract declares its verifiers does not matter. */
  lemma SortedIsAscending(q: seq<string>)
    requires IsDistinct(Sorted(q))
    ensures Sorted(q) == Ordering.Ascending(set v | v in q)
  {
    SortedDistinctIsAscending(q);
    forall x ensures x in Sorted(q) <==> x in q {
      assert x in multiset(Sorted(q)) <==> x in multiset(q);
    }
    Ordering.AscendingIsUnique(Sorted(q), set v | v in q);
  }

  // ---- identifiers ----

  predicate IsIdChar(c: char) {
    'A' <= c <= 'Z' || 'a' <= c <= 'z' || '0' <= c <= '9' || c == '_' || c == '.' || c == '-'
  }

  /** The pattern of node ids. */
  predicate IsIdentifier(id: string) { id != "" && forall i | 0 <= i < |id| :: IsIdChar(id[i]) }

  /** What the graph validators accept of the compiled nodes: legal and distinct ids. */
  ghost predicate IsAcceptable(ids: seq<string>) {
    IsDistinct(ids) && forall i | 0 <= i < |ids| :: IsIdentifier(VerifyId(ids[i]))
  }

  // ---- the compiled graph is valid ----

  predicate IsFixedId(id: Id) {
    id == "inspect" || id == "implement" || id == "repair" || id == "review" || id == "review_fix" || id == "deliver"
  }

  lemma VerifyIdIsNotFixed(v: string)
    ensures !IsFixedId(VerifyId(v))
    ensures VerifyId(v)[7..] == v
  {
    assert VerifyId(v)[0] == 'v';
  }

  lemma FixedIdsDiffer()
    ensures "inspect" != "implement" && "inspect" != "repair" && "inspect" != "review" && "inspect" != "review_fix"
    ensures "inspect" != "deliver" && "implement" != "repair" && "implement" != "review" && "implement" != "review_fix"
    ensures "implement" != "deliver" && "repair" != "review" && "repair" != "review_fix" && "repair" != "deliver"
    ensures "review" != "review_fix" && "review" != "deliver" && "review_fix" != "deliver"
  {
    assert "inspect"[1] == 'n' && "implement"[1] == 'm' && "repair"[2] == 'p' && "review"[2] == 'v' && "review_fix"[2] == 'v';
    assert |"review"| == 6 && |"review_fix"| == 10 && "deliver"[0] == 'd' && "inspect"[0] == 'i' && "repair"[0] == 'r';
  }

  /** The nodes are exactly the six fixed ones and one per verifier. */
  lemma NodesOfCompiled(ids: seq<string>, bound: nat, n: Node)
    ensures n in CompiledGraph(ids, bound).nodes <==>
      || n == AgentNode("inspect") || n == AgentNode("implement") || n == AgentNode("repair") || n == AgentNode("review")
      || n == AgentNode("review_fix") || n == Node("deliver", Delivery, None)
      || exists k: nat :: k < |ids| && n == VerifyNode(ids[k])
  {
    var vs := VerifyNodes(ids);
    assert n in vs <==> exists k: nat :: k < |ids| && n == VerifyNode(ids[k]) by {
      if n in vs {
        var k: nat :| k < |vs| && vs[k] == n;
        assert n == VerifyNode(ids[k]);
      }
      if k: nat :| k < |ids| && n == VerifyNode(ids[k]) { assert vs[k] == n; }
    }
  }

  /** The two edges of the k-th verifier. */
  ghost predicate IsLoopEdge(ids: seq<string>, bound: nat, k: nat, e: Edge) {
    || e == When(Gate(ids, k), Gate(ids, k + 1), "passed", None)
    || e == When(Gate(ids, k), "repair", "failed", Some(bound))
  }

  lemma {:induction false} VerifyEdgesAre(ids: seq<string>, bound: nat, n: nat, e: Edge)
    requires n <= |ids|
    ensures e in VerifyEdges(ids, bound, n) <==>
      exists k: nat :: k < n && IsLoopEdge(ids, bound, k, e)
  {
    hide IsLoopEdge, Gate;
    if n > 0 {
      VerifyEdgesAre(ids, bound, n - 1, e);
      LastVerifyEdges(ids, bound, n, e);
      if k: nat :| k < n && IsLoopEdge(ids, bound, k, e) { assert k == n - 1 || k < n - 1; }
    }
  }

  lemma LastVerifyEdges(ids: seq<string>, bound: nat, n: nat, e: Edge)
    requires 0 < n <= |ids|
    ensures e in VerifyEdges(ids, bound, n) <==> e in VerifyEdges(ids, bound, n - 1) || IsLoopEdge(ids, bound, n - 1, e)
  {
    assert Gate(ids, n - 1) == VerifyId(ids[n - 1]);
    var pass, fail := When(Gate(ids, n - 1), Gate(ids, n), "passed", None),
                      When(Gate(ids, n - 1), "repair", "failed", Some(bound));
    assert VerifyEdges(ids, bound, n) == VerifyEdges(ids, bound, n - 1) + [pass, fail];
  }

  /** The edges are exactly these. */
  ghost predicate IsCompiledEdge(ids: seq<string>, bound: nat, e: Edge) {
    || e == Always("inspect", "implement")
    || e == Always("implement", Gate(ids, 0))
    || e == Always("repair", Gate(ids, 0))
    || e == Always("review_fix", Gate(ids, 0))
    || e == When("review", "deliver", "succeeded", None)
    || e == When("review", "review_fix", "failed", Some(bound))
    || exists k: nat :: k < |ids| && IsLoopEdge(ids, bound, k, e)
  }

  lemma EdgesOfCompiled(ids: seq<string>, bound: nat, e: Edge)
    ensures e in CompiledGraph(ids, bound).edges <==> IsCompiledEdge(ids, bound, e)
  {
    hide VerifyEdges, Gate, When, Always;
    VerifyEdgesAre(ids, bound, |ids|, e);
  }

  lemma CompiledIdsAreDistinct(ids: seq<string>, bound: nat)
    requires IsDistinct(ids)
    ensures DistinctIds(CompiledGraph(ids, bound).nodes)
  {
    FixedIdsDiffer();
    var nodes := CompiledGraph(ids, bound).nodes;
    forall i | 2 <= i < |ids| + 2 ensures nodes[i].id == VerifyId(ids[i - 2]) && !IsFixedId(nodes[i].id) {
      VerifyIdIsNotFixed(ids[i - 2]);
    }
    forall i, j | 0 <= i < j < |nodes| ensures nodes[i].id != nodes[j].id {
      if 2 <= i && j < |ids| + 2 {
        VerifyIdIsNotFixed(ids[i - 2]);
        VerifyIdIsNotFixed(ids[j - 2]);
        assert ids[i - 2] != ids[j - 2];
      }
    }
  }

  lemma CompiledHasNode(ids: seq<string>, bound: nat, n: Node)
    requires
      || n == AgentNode("inspect") || n == AgentNode("implement") || n == AgentNode("repair") || n == AgentNode("review")
      || n == AgentNode("review_fix") || n == Node("deliver", Delivery, None)
      || exists k: nat :: k < |ids| && n == VerifyNode(ids[k])
    ensures n.id in Ids(CompiledGraph(ids, bound))
  {
    NodesOfCompiled(ids, bound, n);
  }

  lemma GateIsANode(ids: seq<string>, bound: nat, k: nat)
    ensures Gate(ids, k) in Ids(CompiledGraph(ids, bound))
  {
    CompiledHasNode(ids, bound, if k < |ids| then VerifyNode(ids[k]) else AgentNode("review"));
  }

  lemma GatesDiffer(ids: seq<string>, j: nat, k: nat)
    requires IsDistinct(ids) && j <= |ids| && k <= |ids| && j != k
    ensures Gate(ids, j) != Gate(ids, k)
  {
    if j < |ids| { VerifyIdIsNotFixed(ids[j]); }
    if k < |ids| { VerifyIdIsNotFixed(ids[k]); }
  }

  lemma GateIsNoOther(ids: seq<string>, k: nat)
    ensures Gate(ids, k) != "inspect" && Gate(ids, k) != "implement" && Gate(ids, k) != "repair"
    ensures Gate(ids, k) != "review_fix" && Gate(ids, k) != "deliver"
  {
    FixedIdsDiffer();
    if k < |ids| { VerifyIdIsNotFixed(ids[k]); }
  }

  lemma CompiledEdgeIsValid(ids: seq<string>, bound: nat, e: Edge)
    requires IsDistinct(ids) && bound >= 1 && IsCompiledEdge(ids, bound, e)
    ensures ValidEdge(CompiledGraph(ids, bound), e)
  {
    hide CompiledGraph, Gate, Ids;
    FixedIdsDiffer();
    FixedNodesAreThere(ids, bound);
    GateIsANode(ids, bound, 0);
    GateIsNoOther(ids, 0);
    if k: nat :| k < |ids| && IsLoopEdge(ids, bound, k, e) {
      GateIsANode(ids, bound, k);
      GateIsANode(ids, bound, k + 1);
      GateIsNoOther(ids, k);
      GatesDiffer(ids, k, k + 1);
    } else {
      assert IsFixedId(e.from) && (IsFixedId(e.to) || e.to == Gate(ids, 0));
    }
  }

  lemma FixedNodesAreThere(ids: seq<string>, bound: nat)
    ensures forall id | IsFixedId(id) :: id in Ids(CompiledGraph(ids, bound))
  {
    hide CompiledGraph, Ids;
    forall id | IsFixedId(id) ensures id in Ids(CompiledGraph(ids, bound)) {
      CompiledHasNode(ids, bound, if id == "deliver" then Node("deliver", Delivery, None) else AgentNode(id));
    }
  }

  /** The compiled graph passes the graph validators. */
  lemma CompiledIsValid(ids: seq<string>, bound: nat)
    requires IsDistinct(ids) && bound >= 1
    ensures ValidGraph(CompiledGraph(ids, bound))
  {
    hide IsCompiledEdge, ValidEdge;
    var g := CompiledGraph(ids, bound);
    CompiledIdsAreDistinct(ids, bound);
    FixedNodesAreThere(ids, bound);
    forall e | e in g.edges ensures ValidEdge(g, e) {
      EdgesOfCompiled(ids, bound, e);
      CompiledEdgeIsValid(ids, bound, e);
    }
    forall n | n in g.nodes ensures ValidNode(g, n) { NodesOfCompiled(ids, bound, n); }
  }

  /** Two verifiers of the same id make two nodes of the same id, which the validators reject. */
  lemma DuplicatesAreRejected(ids: seq<string>, bound: nat)
    requires !IsDistinct(ids)
    ensures !ValidGraph(CompiledGraph(ids, bound))
  {
    var i, j :| 0 <= i < j < |ids| && ids[i] == ids[j];
    var nodes := CompiledGraph(ids, bound).nodes;
    assert nodes[i + 2].id == nodes[j + 2].id;
  }

  /** The compiled graph passes the graph validators if and only if the verifier ids are distinct. */
  lemma CompiledIsValidExactlyWhen(ids: seq<string>, bound: nat)
    requires bound >= 1
    ensures ValidGraph(CompiledGraph(ids, bound)) <==> IsDistinct(ids)
  {
    hide CompiledGraph, ValidGraph;
    if IsDistinct(ids) { CompiledIsValid(ids, bound); } else { DuplicatesAreRejected(ids, bound); }
  }

  // ---- the compiler ----

  method Compile(c: Contract) returns (r: Compilation)
    requires c.verifierIds != []
    ensures r.NotFrozen? <==> !c.frozen
    ensures r.Rejected? <==> c.frozen && !IsAcceptable(Sorted(c.verifierIds))
    ensures r.Compiled? ==> r.graph == CompiledGraph(Sorted(c.verifierIds), LoopBound(c.maxRepairIterations))
    ensures r.Compiled? ==> ValidGraph(r.graph)
    ensures r.Compiled? ==>
      r.graph == CompiledGraph(Ordering.Ascending(set v | v in c.verifierIds), LoopBound(c.maxRepairIterations))
  {
    if !c.frozen { return NotFrozen; }
    var verifiers := Sorted(c.verifierIds);
    assert |verifiers| == |multiset(verifiers)| == |multiset(c.verifierIds)| == |c.verifierIds|;
    var bound := LoopBound(c.maxRepairIterations);
    var acceptable := CheckIds(verifiers);
    if !acceptable { return Rejected; }
    SortedIsAscending(c.verifierIds);
    var nodes := BuildNodes(verifiers);
    var firstVerifier := VerifyId(verifiers[0]);
    var loop := BuildLoops(verifiers, bound);
    var edges := [Always("inspect", "implement"), Always("implement", firstVerifier)] + loop
      + [Always("repair", firstVerifier),
         When("review", "deliver", "succeeded", None),
         When("review", "review_fix", "failed", Some(bound)),
         Always("review_fix", firstVerifier)];
    r := Compiled(Plan("inspect", nodes, edges));
    CompiledIsValid(verifiers, bound);
  }

  /** What pydantic checks of the ids while the graph is built. */
  method CheckIds(ids: seq<string>) returns (ok: bool)
    ensures ok <==> IsAcceptable(ids)
  {
    ok := true;
    for i := 0 to |ids|
      invariant ok <==> forall k | 0 <= k < i ::
        IsIdentifier(VerifyId(ids[k])) && forall j | 0 <= j < k :: ids[j] != ids[k]
    {
      ok := ok && IsIdentifier(VerifyId(ids[i])) && ids[i] !in ids[..i];
    }
  }

  method BuildNodes(verifiers: seq<string>) returns (nodes: seq<Node>)
    ensures forall bound :: nodes == CompiledGraph(verifiers, bound).nodes
  {
    nodes := [AgentNode("inspect"), AgentNode("implement")];
    for i := 0 to |verifiers|
      invariant |nodes| == i + 2 && nodes[0] == AgentNode("inspect") && nodes[1] == AgentNode("implement")
      invariant forall k | 0 <= k < i :: nodes[k + 2] == VerifyNode(verifiers[k])
    {
      nodes := nodes + [VerifyNode(verifiers[i])];
    }
    assert nodes == [AgentNode("inspect"), AgentNode("implement")] + VerifyNodes(verifiers);
    nodes := nodes + [AgentNode("repair"), AgentNode("review"), AgentNode("review_fix"), Node("deliver", Delivery, None)];
  }

  method BuildLoops(verifiers: seq<string>, bound: nat) returns (loop: seq<Edge>)
    ensures loop == VerifyEdges(verifiers, bound, |verifiers|)
  {
    loop := [];
    for index := 0 to |verifiers|
      invariant loop == VerifyEdges(verifiers, bound, index)
    {
      var node := VerifyId(verifiers[index]);
      var passedTarget := if index + 1 < |verifiers| then VerifyId(verifiers[index + 1]) else "review";
      loop := loop + [When(node, passedTarget, "passed", None), When(node, "repair", "failed", Some(bound))];
    }
  }
}
