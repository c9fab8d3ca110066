/**
 The cost ledger (runtime/engine.py): reservations, made atomically before a side effect, and
 charges, made after one. Cost is a real; rounding is not the point here.
 */
module Costs {
  import opened Options

  /** A reservation or a charge of the run, and of a node if it names one. */
  datatype Entry = Entry(node: Option<string>, cost: real)

  datatype Reservation = Reservation(id: string, entry: Entry)

  datatype Failure = BadValue | Collision | NoCostBudget | NodeMissing | RunIsTerminal

  datatype Reply = Accepted | Declined | Raised(why: Failure)

  // ---- sums ----

  function Sum(es: seq<Entry>): real { if es == [] then 0.0 else Sum(es[..|es| - 1]) + es[|es| - 1].cost }

  function SumOf(es: seq<Entry>, node: string): real {
    if es == [] then 0.0
    else SumOf(es[..|es| - 1], node) + if es[|es| - 1].node == Some(node) then es[|es| - 1].cost else 0.0
  }

  lemma OneMore(es: seq<Entry>, e: Entry, node: string)
    ensures Sum(es + [e]) == Sum(es) + e.cost
    ensures SumOf(es + [e], node) == SumOf(es, node) + if e.node == Some(node) then e.cost else 0.0
  {
    assert (es + [e])[..|es|] == es;
  }

  function Entries(rs: seq<Reservation>): seq<Entry> { seq(|rs|, i requires 0 <= i < |rs| => rs[i].entry) }

  lemma EntriesOfOneMore(rs: seq<Reservation>, r: Reservation)
    ensures Entries(rs + [r]) == Entries(rs) + [r.entry]
  {
  }

  // ---- what the rows add up to ----

  ghost predicate AddsUp(
    run: real, nodes: map<string, real>, reservations: seq<Reservation>, charges: seq<Entry>)
  {
    && run == Sum(Entries(reservations)) + Sum(charges)
    && (forall n | n in nodes :: nodes[n] == SumOf(Entries(reservations), n) + SumOf(charges, n))
    && (forall i, j | 0 <= i < j < |reservations| :: reservations[i].id != reservations[j].id)
  }

  /** Reservations alone never exceed a cap. */
  ghost predicate WithinCaps(run: real, nodes: map<string, real>, maxRun: Option<real>, maxNode: map<string, real>) {
    && (maxRun.Some? ==> run <= maxRun.value)
    && (forall n | n in nodes && n in maxNode :: nodes[n] <= maxNode[n])
  }

  lemma ReservationAddsUp(run: real, nodes: map<string, real>, rs: seq<Reservation>, cs: seq<Entry>, r: Reservation)
    requires AddsUp(run, nodes, rs, cs) && (forall i | 0 <= i < |rs| :: rs[i].id != r.id)
    ensures AddsUp(run + r.entry.cost, Charged(nodes, r.entry), rs + [r], cs)
  {
    hide Sum, SumOf, Entries;
    EntriesOfOneMore(rs, r);
    forall n: string ensures Sum(Entries(rs + [r])) == Sum(Entries(rs)) + r.entry.cost
      && SumOf(Entries(rs + [r]), n) == SumOf(Entries(rs), n) + if r.entry.node == Some(n) then r.entry.cost else 0.0
    {
      OneMore(Entries(rs), r.entry, n);
    }
    OneMore(Entries(rs), r.entry, "");
  }

  lemma ChargeAddsUp(run: real, nodes: map<string, real>, rs: seq<Reservation>, cs: seq<Entry>, e: Entry)
    requires AddsUp(run, nodes, rs, cs)
    ensures AddsUp(run + e.cost, Charged(nodes, e), rs, cs + [e])
  {
    hide Sum, SumOf, Entries;
    OneMore(cs, e, "");
    forall n: string ensures SumOf(cs + [e], n) == SumOf(cs, n) + if e.node == Some(n) then e.cost else 0.0 { OneMore(cs, e, n); }
  }

  /** The node rows after an entry. */
  function Charged(nodes: map<string, real>, e: Entry): map<string, real> {
    if e.node.Some? && e.node.value in nodes then nodes[e.node.value := nodes[e.node.value] + e.cost] else nodes
  }

  // ---- the ledger ----

  class CostLedger {
    const maxRun: Option<real>
    /** The caps of the graph's nodes that have one. */
    const maxNode: map<string, real>
    /** Running with no barrier; running at all. */
    var going: bool
    var terminal: bool
    // the budgets row, the nodes' cost_units, and the shared_budget_reservations rows
    var run: real
    var nodes: map<string, real>
    var reservations: seq<Reservation>
    ghost var charges: seq<Entry>

    constructor (maxRun: Option<real>, nodeIds: set<string>, maxNode: map<string, real>)
      ensures Valid() && this.maxRun == maxRun && this.maxNode == maxNode && nodes.Keys == nodeIds
      ensures reservations == [] && charges == [] && going && !terminal
    {
      this.maxRun, this.maxNode := maxRun, maxNode;
      going, terminal := true, false;
      run, nodes, reservations, charges := 0.0, map n | n in nodeIds :: 0.0, [], [];
    }

    ghost predicate Valid()
      reads this
    {
      && AddsUp(run, nodes, reservations, charges)
      && (charges == [] && HasLegalCaps() ==> WithinCaps(run, nodes, maxRun, maxNode))
    }

    /** The validators of a budget allow no negative cap. */
    predicate HasLegalCaps() {
      (maxRun.Some? ==> maxRun.value >= 0.0) && forall n | n in maxNode :: maxNode[n] >= 0.0
    }

    /** The node, if one is named, exists and its cap allows the cost. */
    predicate Affords(nodes: map<string, real>, node: Option<string>, cost: real) {
      node.Some? ==>
        node.value in nodes && (node.value in maxNode ==> nodes[node.value] + cost <= maxNode[node.value])
    }

    /** `reserve_cost`. */
    method Reserve(id: string, cost: real, node: Option<string>) returns (reply: Reply)
      requires Valid()
      modifies this`run, this`nodes, this`reservations
      ensures Valid()
      ensures reply != Accepted ==> run == old(run) && nodes == old(nodes) && reservations == old(reservations)
      ensures reply == Accepted ==> Reservation(id, Entry(node, cost)) in reservations && cost > 0.0 && id != ""
      ensures id == "" || cost <= 0.0 ==> reply == Raised(BadValue)
      ensures id != "" && cost > 0.0 && (forall r | r in old(reservations) :: r.id != id) ==>
        && (reply == Accepted <==> going && maxRun.Some? && old(run) + cost <= maxRun.value && Affords(old(nodes), node, cost))
        && (reply == Raised(NoCostBudget) <==> going && maxRun.None?)
        && (reply == Raised(NodeMissing) <==>
              going && maxRun.Some? && old(run) + cost <= maxRun.value && node.Some? && node.value !in old(nodes))
        && (reply.Raised? ==> reply.why == NoCostBudget || reply.why == NodeMissing)
      ensures id != "" && cost > 0.0 && (exists r :: r in old(reservations) && r.id == id) ==>
        && run == old(run) && nodes == old(nodes) && reservations == old(reservations)
        && reply == if Reservation(id, Entry(node, cost)) in old(reservations) then Accepted else Raised(Collision)
      ensures reply == Accepted && reservations != old(reservations) ==>
        && reservations == old(reservations) + [Reservation(id, Entry(node, cost))]
        && run == old(run) + cost && nodes == Charged(old(nodes), Entry(node, cost))
        && maxRun.Some? && run <= maxRun.value
      ensures WithinCaps(old(run), old(nodes), maxRun, maxNode) ==> WithinCaps(run, nodes, maxRun, maxNode)
    {
      hide AddsUp;
      if id == "" || cost <= 0.0 { return Raised(BadValue); }
      var known := FindReservation(id);
      if known.Some? {
        KnownIsUnique(known.value, id, Entry(node, cost));
        return if known.value.entry == Entry(node, cost) then Accepted else Raised(Collision);
      }
      if !going { return Declined; }
      if maxRun.None? { return Raised(NoCostBudget); }
      if run + cost > maxRun.value { return Declined; }
      if node.Some? {
        if node.value !in nodes { return Raised(NodeMissing); }
        if node.value in maxNode && nodes[node.value] + cost > maxNode[node.value] { return Declined; }
      }
      var row := Reservation(id, Entry(node, cost));
      ReservationAddsUp(run, nodes, reservations, charges, row);
      reservations := reservations + [row];
      run := run + cost;
      if node.Some? { nodes := nodes[node.value := nodes[node.value] + cost]; }
      return Accepted;
    }

    method FindReservation(id: string) returns (found: Option<Reservation>)
      ensures found.Some? ==> found.value in reservations && found.value.id == id
      ensures found.None? ==> forall i | 0 <= i < |reservations| :: reservations[i].id != id
    {
      for i := 0 to |reservations|
        invariant forall j | 0 <= j < i :: reservations[j].id != id
      {
        if reservations[i].id == id { return Some(reservations[i]); }
      }
      return None;
    }

    lemma KnownIsUnique(known: Reservation, id: string, entry: Entry)
      requires Valid() && known in reservations && known.id == id
      ensures Reservation(id, entry) in reservations <==> known.entry == entry
    {
      if Reservation(id, entry) in reservations {
        var i :| 0 <= i < |reservations| && reservations[i] == known;
        var j :| 0 <= j < |reservations| && reservations[j] == Reservation(id, entry);
        assert i == j;
      }
    }

    /** `charge_cost`; `late` is what the clock says of the run's and the node's time limits. */
    method Charge(cost: real, node: Option<string>, late: bool) returns (reply: Reply, exceeded: bool)
      requires Valid()
      modifies this`run, this`nodes, this`charges, this`going, this`terminal
      ensures Valid()
      ensures terminal == (old(terminal) || (reply == Accepted && (late || exceeded)))
      ensures going == (old(going) && !(reply == Accepted && (late || exceeded)))
      ensures reply != Accepted ==> run == old(run) && nodes == old(nodes) && charges == old(charges) && !exceeded
      ensures reply == Accepted ==>
        && charges == old(charges) + [Entry(node, cost)] && run == old(run) + cost
        && nodes == Charged(old(nodes), Entry(node, cost))
        && (exceeded <==> (maxRun.Some? && run > maxRun.value)
                          || (node.Some? && node.value in maxNode && node.value in nodes && nodes[node.value] > maxNode[node.value]))
      ensures reply == Accepted <==> cost > 0.0 && (node.Some? ==> node.value in old(nodes)) && !old(terminal)
    {
      hide AddsUp;
      exceeded := false;
      if cost <= 0.0 { return Raised(BadValue), false; }
      if node.Some? && node.value !in nodes { return Raised(NodeMissing), false; }
      if terminal { return Raised(RunIsTerminal), false; }
      ChargeAddsUp(run, nodes, reservations, charges, Entry(node, cost));
      run := run + cost;
      if node.Some? { nodes := nodes[node.value := nodes[node.value] + cost]; }
      charges := charges + [Entry(node, cost)];
      reply := Accepted;
      exceeded := (maxRun.Some? && run > maxRun.value)
        || (node.Some? && node.value in maxNode && nodes[node.value] > maxNode[node.value]);
      if late || exceeded { going, terminal := false, true; }
    }
  }
}
