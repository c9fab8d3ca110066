/**
 One token walking a plan. The engine keeps a run's own nodes this way (nodes and
 edge_traversals rows) and the parallel coordinator keeps every branch this way
 (parallel_branch_nodes and parallel_branch_edge_traversals rows), so both are one notion.
 */
module Walks {
  import opened Options
  import opened Graphs
  import opened Results

  datatype RowState = Waiting | Ready | InFlight | Settled(outcome: Outcome)

  /** The external_handles row of a node: absent, 'triggering' with a NULL handle, or 'checkpointed'. */
  datatype Trigger = Untriggered | Triggering | Checkpointed(handle: string)

  /**
   A node row, joined with the graph node it is a row of (the code looks that node up by id).
   `polls` numbers the answers of the current attempt; nothing reads it back.
   */
  datatype Row = Row(
    node: Node, state: RowState, attempts: nat, result: Option<Result>, routed: bool, repairs: nat,
    trigger: Trigger, polls: nat)

  datatype Walk = Walk(rows: map<Id, Row>, counts: map<(Id, Id), nat>, at: Option<Id>)

  function FreshRow(n: Node, s: RowState): Row { Row(n, s, 0, None, false, 0, Untriggered, 0) }

  function Fresh(p: Plan): Walk {
    Walk(map id | id in Ids(p) :: FreshRow(NodeOf(p, id), if id == p.entry then Ready else Waiting),
         map[], Some(p.entry))
  }

  function Count(counts: map<(Id, Id), nat>, from: Id, to: Id): nat {
    if (from, to) in counts then counts[(from, to)] else 0
  }

  /** A row the scheduler still owes work: ready, running, or done with an unrouted result. */
  ghost predicate IsLive(r: Row) {
    && !r.routed
    && match r.state
       case Waiting => false
       case Ready => r.result.None?
       case InFlight =>
         r.result.None? && r.attempts >= 1 && (IsExternal(r.node.kind) ==> !r.trigger.Untriggered?)
       case Settled(o) => HoldsResult(r)
  }

  ghost predicate HoldsResult(r: Row) {
    && r.state.Settled? && r.result.Some? && r.attempts >= 1
    && Fits(r.node.kind, r.result.value) && !r.result.value.Awaiting?
    && OutcomeOf(r.result.value) == r.state.outcome
  }

  ghost predicate IsResting(r: Row) {
    match r.state
    case Waiting => r.result.None? && !r.routed
    case Settled(_) => r.routed && HoldsResult(r)
    case _ => false
  }

  /** The rows are the plan's nodes, one row each, and only an external verifier has a handle row. */
  ghost predicate KeepsRows(p: Plan, w: Walk) {
    && w.rows.Keys == Ids(p)
    && forall id | id in w.rows ::
         && w.rows[id].node in p.nodes && w.rows[id].node.id == id
         && (!IsExternal(w.rows[id].node.kind) ==> w.rows[id].trigger.Untriggered?)
  }

  predicate AtRow(w: Walk) { w.at.Some? && w.at.value in w.rows }

  function Current(w: Walk): Row
    requires AtRow(w)
  {
    w.rows[w.at.value]
  }

  /** Exactly one node is live, and it is the one the walk points at. */
  ghost predicate OneToken(w: Walk) {
    && AtRow(w)
    && IsLive(Current(w))
    && (forall id | id in w.rows && id != w.at.value :: IsResting(w.rows[id]))
  }

  // ---- the four writes of a walk ----

  function Begin(w: Walk, id: Id, external: bool): Walk
    requires id in w.rows
  {
    var r := w.rows[id];
    w.(rows := w.rows[id := r.(state := InFlight, attempts := r.attempts + 1, result := None,
                               routed := false, polls := 0,
                               trigger := if external then Triggering else r.trigger)])
  }

  function Checkpoint(w: Walk, id: Id, handle: string): Walk
    requires id in w.rows
  {
    var r := w.rows[id];
    w.(rows := w.rows[id := r.(trigger := if r.trigger.Untriggered? then Untriggered else Checkpointed(handle))])
  }

  function Settle(w: Walk, id: Id, result: Result): Walk
    requires id in w.rows && !result.Awaiting?
  {
    w.(rows := w.rows[id := w.rows[id].(state := Settled(OutcomeOf(result)), result := Some(result), routed := false)])
  }

  function Advance(w: Walk, e: Edge, repair: bool): Walk
    requires e.from in w.rows && e.to in w.rows
  {
    var source := w.rows[e.from];
    var source' := source.(routed := true, repairs := source.repairs + if repair then 1 else 0);
    var rows' := w.rows[e.from := source'];
    Walk(rows'[e.to := rows'[e.to].(state := Ready, result := None, routed := false)],
         w.counts[(e.from, e.to) := Count(w.counts, e.from, e.to) + 1],
         Some(e.to))
  }

  function Polled(w: Walk, id: Id): Walk
    requires id in w.rows
  {
    w.(rows := w.rows[id := w.rows[id].(polls := w.rows[id].polls + 1)])
  }

  // ---- guarded first-match routing ----

  predicate IsOpen(e: Edge, counts: map<(Id, Id), nat>, from: Id, r: Result, attempt: nat) {
    && e.from == from
    && (e.maxIterations.Some? ==> Count(counts, e.from, e.to) < e.maxIterations.value)
    && (e.condition.Some? ==> ConditionMatches(e.condition.value, r, attempt))
  }

  /** The first edge, in declaration order, that leaves `from`, has traversals left and matches. */
  ghost predicate IsSelection(
    edges: seq<Edge>, counts: map<(Id, Id), nat>, from: Id, r: Result, attempt: nat, selected: Option<Edge>)
  {
    match selected
    case None => forall e | e in edges :: !IsOpen(e, counts, from, r, attempt)
    case Some(e) =>
      exists i :: 0 <= i < |edges| && edges[i] == e && IsOpen(e, counts, from, r, attempt)
        && forall j | 0 <= j < i :: !IsOpen(edges[j], counts, from, r, attempt)
  }

  function Select(edges: seq<Edge>, counts: map<(Id, Id), nat>, from: Id, r: Result, attempt: nat): (s: Option<Edge>)
    ensures s.Some? ==> s.value in edges && s.value.from == from
  {
    if edges == [] then None
    else if IsOpen(edges[0], counts, from, r, attempt) then Some(edges[0])
    else Select(edges[1..], counts, from, r, attempt)
  }

  lemma {:induction false} SelectIsFirst(edges: seq<Edge>, counts: map<(Id, Id), nat>, from: Id, r: Result, attempt: nat)
    ensures IsSelection(edges, counts, from, r, attempt, Select(edges, counts, from, r, attempt))
  {
    if edges != [] && !IsOpen(edges[0], counts, from, r, attempt) {
      var rest := edges[1..];
      SelectIsFirst(rest, counts, from, r, attempt);
      match Select(rest, counts, from, r, attempt)
      case None =>
        forall e | e in edges ensures !IsOpen(e, counts, from, r, attempt) {
          if e != edges[0] { assert e in rest; }
        }
      case Some(e) =>
        var i :| 0 <= i < |rest| && rest[i] == e && IsOpen(e, counts, from, r, attempt)
          && forall j | 0 <= j < i :: !IsOpen(rest[j], counts, from, r, attempt);
        assert edges[i + 1] == e;
        forall j | 0 <= j < i + 1 ensures !IsOpen(edges[j], counts, from, r, attempt) {
          if j > 0 { assert edges[j] == rest[j - 1]; }
        }
    }
  }

  lemma SelectionIsUnique(
    edges: seq<Edge>, counts: map<(Id, Id), nat>, from: Id, r: Result, attempt: nat, a: Option<Edge>, b: Option<Edge>)
    requires IsSelection(edges, counts, from, r, attempt, a)
    requires IsSelection(edges, counts, from, r, attempt, b)
    ensures a == b
  {
    if a.Some? && b.Some? {
      var i :| 0 <= i < |edges| && edges[i] == a.value && forall j | 0 <= j < i :: !IsOpen(edges[j], counts, from, r, attempt);
      var k :| 0 <= k < |edges| && edges[k] == b.value && forall j | 0 <= j < k :: !IsOpen(edges[j], counts, from, r, attempt);
      assert !(i < k) && !(k < i);
    }
  }

  // ---- the token is kept by every write ----

  lemma FreshHasOneToken(p: Plan)
    requires ValidPlan(p)
    ensures KeepsRows(p, Fresh(p)) && OneToken(Fresh(p))
  {
  }

  lemma BeginKeepsToken(p: Plan, w: Walk)
    requires KeepsRows(p, w) && OneToken(w) && Current(w).state.Ready?
    ensures var w' := Begin(w, w.at.value, IsExternal(Current(w).node.kind));
      KeepsRows(p, w') && OneToken(w') && Current(w').state.InFlight?
  {
  }

  lemma CheckpointKeepsToken(p: Plan, w: Walk, h: string)
    requires KeepsRows(p, w) && OneToken(w) && Current(w).state.InFlight?
    ensures var w' := Checkpoint(w, w.at.value, h);
      KeepsRows(p, w') && OneToken(w') && Current(w').state.InFlight?
  {
  }

  lemma PolledKeepsToken(p: Plan, w: Walk)
    requires KeepsRows(p, w) && OneToken(w) && Current(w).state.InFlight?
    ensures var w' := Polled(w, w.at.value);
      KeepsRows(p, w') && OneToken(w') && Current(w').state.InFlight?
  {
  }

  lemma SettleKeepsToken(p: Plan, w: Walk, r: Result)
    requires KeepsRows(p, w) && OneToken(w) && Current(w).state.InFlight?
    requires Fits(Current(w).node.kind, r) && !r.Awaiting?
    ensures var w' := Settle(w, w.at.value, r);
      KeepsRows(p, w') && OneToken(w') && Current(w').state.Settled? && Current(w').result == Some(r)
  {
  }

  lemma AdvanceKeepsToken(p: Plan, w: Walk, e: Edge, repair: bool)
    requires ValidPlan(p) && KeepsRows(p, w) && OneToken(w) && Current(w).state.Settled?
    requires e in p.edges && e.from == w.at.value
    ensures e.to in w.rows && e.to != e.from
    ensures var w' := Advance(w, e, repair);
      KeepsRows(p, w') && OneToken(w') && Current(w').state.Ready?
  {
    assert ValidEdge(p, e);
  }

  // ---- what a restart from a checkpoint inherits ----

  /** A running node becomes ready again; counters, results and routing marks are inherited. */
  function InheritRow(r: Row, keepRepairs: bool): Row {
    r.(state := if r.state.InFlight? then Ready else r.state,
       repairs := if keepRepairs then r.repairs else 0, trigger := Untriggered, polls := 0)
  }

  function Inherit(w: Walk, keepRepairs: bool): (w': Walk)
    ensures w'.rows.Keys == w.rows.Keys
  {
    w.(rows := map id | id in w.rows :: InheritRow(w.rows[id], keepRepairs))
  }

  lemma InheritKeepsRows(p: Plan, w: Walk, keepRepairs: bool)
    requires KeepsRows(p, w)
    ensures KeepsRows(p, Inherit(w, keepRepairs))
  {
  }

  lemma InheritKeepsToken(w: Walk, keepRepairs: bool)
    requires OneToken(w)
    ensures OneToken(Inherit(w, keepRepairs))
  {
    var w' := Inherit(w, keepRepairs);
    forall id | id in w'.rows && id != w.at.value ensures IsResting(w'.rows[id]) {
      assert IsResting(w.rows[id]);
    }
  }
}
