/**
 Execution graphs and their static validators (models/graph.py). A `Plan` is what an
 ExecutionGraph and a Subgraph share: an entry node, nodes and edges.
 */
module Graphs {
  import opened Options

  type Id = string

  datatype Scalar = Text(text: string) | Number(number: int) | Flag(flag: bool)

  datatype RouteField = ResultStatus | ResultRetryable | AttemptNumber

  datatype RouteTest =
    | Equals(value: Scalar)
    | NotEquals(value: Scalar)
    | In(values: seq<Scalar>)
    | NotIn(values: seq<Scalar>)

  datatype RouteCondition = RouteCondition(field: RouteField, test: RouteTest)

  datatype Edge = Edge(from: Id, to: Id, condition: Option<RouteCondition>, maxIterations: Option<nat>)

  datatype NodeBudget = NodeBudget(maxExecutorCalls: nat, maxRepairIterations: nat)

  datatype Kind =
    | Agent
    | Command
    | Verifier(external: bool)
    | Router
    | Delivery
    | Parallel(maxConcurrency: nat, branches: seq<ParallelBranch>)
    | Nested(subgraph: Plan)
    | Join(parallelNodeId: Id)

  datatype Node = Node(id: Id, kind: Kind, budget: Option<NodeBudget>)

  datatype ParallelBranch = ParallelBranch(id: Id, subgraph: Plan)

  datatype Plan = Plan(entry: Id, nodes: seq<Node>, edges: seq<Edge>)

  /** Python compares a bool with an int by value, so True == 1 and False == 0. */
  predicate SameScalar(a: Scalar, b: Scalar) {
    match (a, b)
    case (Text(s), Text(t)) => s == t
    case (Number(m), Number(n)) => m == n
    case (Flag(x), Flag(y)) => x == y
    case (Flag(x), Number(n)) => n == (if x then 1 else 0)
    case (Number(n), Flag(x)) => n == (if x then 1 else 0)
    case _ => false
  }

  predicate Satisfies(actual: Scalar, test: RouteTest) {
    match test
    case Equals(v) => SameScalar(actual, v)
    case NotEquals(v) => !SameScalar(actual, v)
    case In(vs) => exists v | v in vs :: SameScalar(actual, v)
    case NotIn(vs) => forall v | v in vs :: !SameScalar(actual, v)
  }

  predicate IsContainer(k: Kind) { k.Parallel? || k.Nested? }

  /** The node kinds whose attempts do not count as executor calls. */
  predicate IsCounted(k: Kind) { !k.Parallel? && !k.Nested? && !k.Join? }

  predicate IsExternal(k: Kind) { k.Verifier? && k.external }

  function Ids(p: Plan): set<Id> { set n | n in p.nodes :: n.id }

  function FindNode(nodes: seq<Node>, id: Id): (n: Option<Node>)
    ensures n.Some? ==> n.value in nodes && n.value.id == id
    ensures n.None? ==> forall m | m in nodes :: m.id != id
  {
    if nodes == [] then None
    else if nodes[0].id == id then Some(nodes[0])
    else FindNode(nodes[1..], id)
  }

  function NodeOf(p: Plan, id: Id): (n: Node)
    requires id in Ids(p)
    ensures n in p.nodes && n.id == id
  {
    FindNode(p.nodes, id).value
  }

  ghost predicate DistinctIds(nodes: seq<Node>) {
    forall i, j | 0 <= i < j < |nodes| :: nodes[i].id != nodes[j].id
  }

  ghost predicate ValidPlan(p: Plan) {
    && DistinctIds(p.nodes)
    && p.entry in Ids(p)
    && (forall e | e in p.edges :: ValidEdge(p, e))
  }

  ghost predicate ValidEdge(p: Plan, e: Edge) {
    && e.from in Ids(p) && e.to in Ids(p) && e.from != e.to
    && (e.maxIterations.Some? ==> e.maxIterations.value >= 1)
  }

  /** Nested containers are rejected, so a subgraph is a plan of serial nodes. */
  ghost predicate ValidSubgraph(p: Plan) {
    ValidPlan(p) && forall n | n in p.nodes :: !IsContainer(n.kind) && !n.kind.Join?
  }

  ghost predicate ValidNode(g: Plan, n: Node) {
    match n.kind
    case Parallel(limit, branches) =>
      && 1 <= limit <= 64
      && |branches| >= 2
      && (forall i, j | 0 <= i < j < |branches| :: branches[i].id != branches[j].id)
      && (forall b | b in branches :: ValidSubgraph(b.subgraph))
    case Nested(p) => ValidSubgraph(p)
    case Join(source) =>
      && source in Ids(g)
      && NodeOf(g, source).kind.Parallel?
      && exists e | e in g.edges :: e.from == source && e.to == n.id
    case _ => true
  }

  ghost predicate ValidGraph(g: Plan) {
    ValidPlan(g) && forall n | n in g.nodes :: ValidNode(g, n)
  }

  lemma NodeIsUnique(p: Plan, n: Node)
    requires DistinctIds(p.nodes) && n in p.nodes
    ensures n.id in Ids(p) && NodeOf(p, n.id) == n
  {
  }
}
