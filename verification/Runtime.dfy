/**
 The engine and the branch coordinator as the program runs them: objects whose methods update
 the rows of one run. The ghost log lists the labels taken so far, and validity says that the
 rows are what the labelled machine computes from that log; so every theorem about reachable
 states is a theorem about these objects.
 */
module Runtime {
  import opened Options
  import opened Graphs
  import opened Results
  import opened Walks
  import opened Reports
  import opened Machine
  import opened Tokens
  import opened Effects
  import Ordering

  // ---- the log ----

  lemma {:induction false} RunExtends(g: Plan, s: State, ls: seq<Label>, l: Label)
    requires IsRun(g, s, ls) && Enabled(g, Exec(g, s, ls), l)
    ensures IsRun(g, s, ls + [l]) && Exec(g, s, ls + [l]) == Apply(g, Exec(g, s, ls), l)
    decreases |ls|
  {
    hide Enabled, Apply;
    if ls == [] {
      assert [] + [l] == [l] && [l][1..] == [];
      assert IsRun(g, Apply(g, s, l), []);
    } else {
      RunExtends(g, Apply(g, s, ls[0]), ls[1..], l);
      assert (ls + [l])[1..] == ls[1..] + [l];
      assert (ls + [l])[0] == ls[0];
    }
  }

  // ---- the world outside ----

  /** What someone may do to a run while it works. */
  datatype Touch = Press(action: Action) | CancelRun

  /** The checks pydantic makes of an executor's or verifier's answer. */
  predicate IsProtocolAnswer(k: Kind, r: Result) {
    match r
    case Executed(o, _, reason, error) =>
      && !k.Verifier? && o != Blocked && (o == Failed ==> reason != "") && (error.Some? <==> o == Errored)
    case Verified(o, _, details, error) =>
      && k.Verifier? && o != Blocked && (o == Failed ==> details != []) && (error.Some? <==> o == Errored)
    case Awaiting(_) => k.Verifier?
    case Joined(_) => false
  }

  lemma ProtocolAnswersFit(k: Kind, r: Result)
    requires !IsContainer(k) && !k.Join?
    ensures IsProtocolAnswer(k, r) ==> Fits(k, r)
    ensures Fits(k, r) ==> IsProtocolAnswer(k, r)
  {
  }

  /** Anything else an executor or verifier does is an exception, which the boundary converts. */
  function Converted(k: Kind, r: Result): Result {
    if IsProtocolAnswer(k, r) then r
    else if k.Verifier? then Verified(Errored, false, [], BOUNDARY.error)
    else BOUNDARY
  }

  /** Scripts of everything the code does not decide. Any scripts at all may be given. */
  class World {
    var answers: seq<Result>
    var touches: seq<seq<Touch>>
    var limits: seq<bool>

    constructor (answers: seq<Result>, touches: seq<seq<Touch>>, limits: seq<bool>)
      ensures this.answers == answers && this.touches == touches && this.limits == limits
    {
      this.answers, this.touches, this.limits := answers, touches, limits;
    }

    /** What comes next from outside; after the last answer, only what no protocol allows. */
    function Raw(): Result
      reads this`answers
    {
      if answers == [] then Joined(ParallelResult("", Succeeded, [], {}, [], None)) else answers[0]
    }

    /** What the boundary makes of it, when an executor or verifier is called. */
    function Reply(k: Kind): Result
      reads this`answers
    {
      Converted(k, Raw())
    }

    /** What a query of a handle makes of it: nothing, as an exception is not converted there. */
    function Report(k: Kind): Option<Result>
      reads this`answers
    {
      if IsProtocolAnswer(k, Raw()) then Some(Raw()) else None
    }

    /** Whether the next look at the clock, or the cost, finds a limit hit. */
    predicate IsLimited()
      reads this`limits
    {
      limits != [] && limits[0]
    }

    method Next() returns (raw: Result)
      modifies this`answers
      ensures raw == old(Raw()) && answers == if old(answers) == [] then [] else old(answers)[1..]
    {
      raw := Joined(ParallelResult("", Succeeded, [], {}, [], None));
      if answers != [] { raw, answers := answers[0], answers[1..]; }
    }

    /** The executor or verifier is called. */
    method Ask(k: Kind) returns (r: Result)
      requires !IsContainer(k) && !k.Join?
      modifies this`answers
      ensures Fits(k, r) && r == old(Reply(k))
      ensures answers == if old(answers) == [] then [] else old(answers)[1..]
    {
      var raw := Next();
      r := Converted(k, raw);
      ProtocolAnswersFit(k, r);
    }

    /** The verifier is asked about a handle; it answers, or the query raises. */
    method Query(k: Kind) returns (r: Option<Result>)
      requires !IsContainer(k) && !k.Join?
      modifies this`answers
      ensures (r.Some? ==> Fits(k, r.value)) && r == old(Report(k))
      ensures answers == if old(answers) == [] then [] else old(answers)[1..]
    {
      var raw := Next();
      r := if IsProtocolAnswer(k, raw) then Some(raw) else None;
      ProtocolAnswersFit(k, raw);
    }

    method NextTouches() returns (ts: seq<Touch>)
      modifies this`touches
      ensures ts == (if old(touches) == [] then [] else old(touches)[0])
    {
      ts := [];
      if touches != [] { ts, touches := touches[0], touches[1..]; }
    }

    method LimitHit() returns (hit: bool)
      modifies this`limits
      ensures hit == old(IsLimited())
    {
      hit := false;
      if limits != [] { hit, limits := limits[0], limits[1..]; }
    }
  }

  // ---- guarded first-match routing ----

  /** The loop over the edges that `_route_result` and a branch's `_route` share. */
  method SelectEdge(edges: seq<Edge>, counts: map<(Id, Id), nat>, n: Id, r: Result, attempt: nat)
    returns (selected: Option<Edge>)
    ensures IsSelection(edges, counts, n, r, attempt, selected)
    ensures selected == Select(edges, counts, n, r, attempt)
  {
    SelectIsFirst(edges, counts, n, r, attempt);
    selected := None;
    for i := 0 to |edges|
      invariant selected.None?
      invariant forall j | 0 <= j < i :: !IsOpen(edges[j], counts, n, r, attempt)
    {
      var edge := edges[i];
      if edge.from != n { continue; }
      var count := if (edge.from, edge.to) in counts then counts[(edge.from, edge.to)] else 0;
      if edge.maxIterations.Some? && count >= edge.maxIterations.value { continue; }
      if edge.condition.None? || ConditionMatches(edge.condition.value, r, attempt) {
        assert IsOpen(edge, counts, n, r, attempt);
        SelectionIsUnique(edges, counts, n, r, attempt, Some(edge), Select(edges, counts, n, r, attempt));
        return Some(edge);
      }
    }
    SelectionIsUnique(edges, counts, n, r, attempt, None, Select(edges, counts, n, r, attempt));
  }

  // ---- the engine ----

  /** The loop does not go on from here unless someone resumes the run. */
  predicate IsAtRest(status: RunStatus) { status.Terminal? || status == Paused }

  /** A transaction, followed by the freeze of the report if it is the one that ended the run. */
  function Logged(l: Label, before: RunStatus, after: RunStatus): seq<Label> {
    if after.Terminal? && !before.Terminal? then [l, Freeze] else [l]
  }

  /** What a start transaction comes to: an attempt, a budget that refuses it, or an exception. */
  datatype Start = Started | Refused | Barred

  class GraphRuntime {
    const graph: Plan
    ghost const creation: Budget

    // the runs, reports and budgets rows
    var status: RunStatus
    var barrier: Barrier
    var ending: Option<Ending>
    var report: Option<Ending>
    var budget: Budget
    var calls: nat
    var repairs: nat
    // the nodes and edge_traversals rows, and current_node_id
    var nodes: map<Id, Row>
    var traversals: map<(Id, Id), nat>
    var current: Option<Id>
    // the parallel_branches rows with their nodes and traversals, and the pool of branch threads
    var branches: map<Slot, Branch>
    var threads: map<Slot, Thread>
    // the machine's state, and the labels that lead to it
    ghost var state: State
    ghost var log: seq<Label>

    /** The rows are the machine's. */
    ghost predicate Mirrors()
      reads this
    {
      && status == state.status && barrier == state.barrier && ending == state.ending && report == state.report
      && budget == state.budget && calls == state.calls && repairs == state.repairs
      && nodes == state.top.rows && traversals == state.top.counts && current == state.top.at
      && branches == state.branches && threads == state.threads
    }

    /** The log is a run of the machine from the creation of this lineage to the state. */
    ghost predicate Leads()
      reads this`log, this`state
    {
      ValidGraph(graph) && IsRun(graph, Init(graph, creation), log) && Exec(graph, Init(graph, creation), log) == state
    }

    ghost predicate Valid()
      reads this
    {
      Mirrors() && Leads()
    }

    lemma ValidIsReachable()
      requires Leads()
      ensures Reachable(graph, creation, state) && Sound(graph, state)
    {
      hide Sound, IsRun, Exec, ValidGraph;
      InitIsSound(graph, creation);
      RunKeepsSound(graph, Init(graph, creation), log);
    }

    /** A committed transaction is logged. */
    ghost method Record(l: Label)
      requires Leads() && Enabled(graph, state, l)
      modifies this`log, this`state
      ensures Leads() && state == Apply(graph, old(state), l) && log == old(log) + [l]
    {
      hide Enabled, Apply, IsRun, Exec, ValidGraph;
      RunExtends(graph, Init(graph, creation), log, l);
      log, state := log + [l], Apply(graph, state, l);
    }

    // ---- creation ----

    constructor (graph: Plan, budget: Budget)
      requires ValidGraph(graph)
      ensures Valid() && state == Init(graph, budget) && this.graph == graph && creation == budget && log == []
    {
      hide Leads, Fresh, ValidGraph, AllRows, InitBranches;
      this.graph, this.budget, creation := graph, budget, budget;
      status, barrier, ending, report := Running, NoBarrier, None, None;
      calls, repairs, traversals, current := 0, 0, map[], Some(graph.entry);
      nodes, branches, threads := map[], map[], map[];
      log, state := [], Init(graph, budget);
      new;
      InsertNodes();
      Initialize();
      FreshIs(graph);
      InsertedRowsAreInit(graph);
      NothingLogged();
    }

    /** `create_run` with `restart_from`: a new run that inherits the rows of a checkpoint. */
    constructor Restarted(parent: GraphRuntime, budget: Budget)
      requires parent.Valid()
      ensures Valid() && graph == parent.graph && creation == parent.creation
      ensures state == RestartFrom(parent.state, budget) && log == parent.log + [Restart(budget)]
    {
      hide Leads, RestartFrom, Enabled, Apply;
      graph, creation, this.budget := parent.graph, parent.creation, budget;
      status, barrier, ending, report := Running, NoBarrier, None, None;
      calls, repairs, traversals, current := 0, 0, parent.traversals, parent.current;
      nodes, branches, threads := map[], map[], map[];
      log, state := parent.log, parent.state;
      new;
      InheritNodes(parent.nodes);
      InheritBranchRows(parent.branches);
      assert Leads() by { SameLog(parent); }
      RestartIs(graph, state, budget);
      Record(Restart(budget));
    }

    lemma SameLog(parent: GraphRuntime)
      requires parent.Leads() && graph == parent.graph && creation == parent.creation
      requires log == parent.log && state == parent.state
      ensures Leads()
    {
    }

    method InheritNodes(rows: map<Id, Row>)
      requires nodes == map[]
      modifies this`nodes
      ensures nodes == map id | id in rows :: InheritRow(rows[id], false)
    {
      var rest := rows.Keys;
      while rest != {}
        invariant rest <= rows.Keys && nodes.Keys == rows.Keys - rest
        invariant forall id | id in nodes :: nodes[id] == InheritRow(rows[id], false)
        decreases |rest|
      {
        var id :| id in rest;
        var row := rows[id];
        nodes := nodes[id := Row(row.node, if row.state.InFlight? then Ready else row.state, row.attempts, row.result,
                                 row.routed, 0, Untriggered, 0)];
        rest := rest - {id};
      }
    }

    /** `ParallelCoordinator.inherit`: an active branch becomes pending again. */
    method InheritBranchRows(rows: map<Slot, Branch>)
      requires branches == map[]
      modifies this`branches
      ensures branches == InheritBranches(rows)
    {
      var rest := rows.Keys;
      while rest != {}
        invariant rest <= rows.Keys && branches.Keys == rows.Keys - rest
        invariant forall slot | slot in branches :: branches[slot] == InheritBranch(rows[slot])
        decreases |rest|
      {
        var slot :| slot in rest;
        var b := rows[slot];
        var status := if b.status.Active? then Pending else b.status;
        branches := branches[slot := b.(status := status, walk := Inherit(b.walk, true))];
        rest := rest - {slot};
      }
    }

    lemma NothingLogged()
      requires ValidGraph(graph) && log == [] && state == Init(graph, creation)
      ensures Leads()
    {
    }

    /** One row per node; the entry node is ready. */
    method InsertNodes()
      requires nodes == map[] && ValidGraph(graph)
      modifies this`nodes
      ensures nodes == Fresh(graph).rows
    {
      for i := 0 to |graph.nodes|
        invariant nodes.Keys == set j | 0 <= j < i :: graph.nodes[j].id
        invariant forall j | 0 <= j < i ::
          nodes[graph.nodes[j].id] == FreshRow(graph.nodes[j], if graph.nodes[j].id == graph.entry then Ready else Waiting)
      {
        var node := graph.nodes[i];
        nodes := nodes[node.id := FreshRow(node, if node.id == graph.entry then Ready else Waiting)];
      }
      assert nodes.Keys == Ids(graph);
      forall id | id in nodes
        ensures nodes[id] == FreshRow(NodeOf(graph, id), if id == graph.entry then Ready else Waiting)
      {
        var j :| 0 <= j < |graph.nodes| && graph.nodes[j].id == id;
        NodeIsUnique(graph, graph.nodes[j]);
      }
    }

    /** `ParallelCoordinator.initialize`: one row per branch of every container, in order. */
    method Initialize()
      requires ValidGraph(graph) && branches == map[]
      modifies this`branches
      ensures branches == AllRows(graph.nodes, |graph.nodes|)
    {
      for i := 0 to |graph.nodes|
        invariant branches == AllRows(graph.nodes, i)
      {
        var node := graph.nodes[i];
        var list := BranchesOf(node.kind);
        for order := 0 to |list|
          invariant branches == RowsOf(node, order, AllRows(graph.nodes, i))
        {
          branches := branches[Slot(node.id, list[order].id) := FirstRow(node, order)];
        }
      }
    }

    // ---- the scheduler's queries ----

    /** `_next_node_row`: running before ready, then the smallest id. */
    method NextNodeRow() returns (n: Option<Id>)
      requires KeepsRows(graph, Walk(nodes, traversals, current))
      ensures n.Some? ==> IsScheduled(nodes, n.value)
      ensures n.None? ==> forall m | m in nodes :: !IsActive(nodes[m])
    {
      n := None;
      for i := 0 to |graph.nodes|
        invariant n.None? ==> forall j | 0 <= j < i :: !IsActive(nodes[graph.nodes[j].id])
        invariant n.Some? ==> n.value in nodes && IsActive(nodes[n.value])
        invariant n.Some? ==> forall j | 0 <= j < i && IsActive(nodes[graph.nodes[j].id]) ::
               graph.nodes[j].id == n.value || IsSooner(nodes, n.value, graph.nodes[j].id)
      {
        var id := graph.nodes[i].id;
        assert id in Ids(graph);
        if IsActive(nodes[id]) && (n.None? || IsSooner(nodes, id, n.value)) {
          forall j | 0 <= j < i && IsActive(nodes[graph.nodes[j].id])
            ensures graph.nodes[j].id == id || IsSooner(nodes, id, graph.nodes[j].id)
          {
            if graph.nodes[j].id != n.value { SoonerIsTransitive(nodes, id, n.value, graph.nodes[j].id); }
          }
          n := Some(id);
        } else if IsActive(nodes[id]) {
          SoonerIsTotal(nodes, id, n.value);
        }
      }
      EveryRowIsANode(graph, Walk(nodes, traversals, current));
      if n.Some? { SoonestIsScheduled(nodes, n.value); }
    }

    /** `_unresolved_result_row`: the smallest id with an unrouted result. */
    method UnresolvedResultRow() returns (n: Option<Id>)
      requires KeepsRows(graph, Walk(nodes, traversals, current))
      requires forall m | m in nodes :: !IsActive(nodes[m])
      ensures n.Some? ==> IsUnresolved(nodes, n.value)
      ensures n.None? ==> forall m | m in nodes :: !IsUnrouted(nodes[m])
    {
      n := None;
      for i := 0 to |graph.nodes|
        invariant n.None? ==> forall j | 0 <= j < i :: !IsUnrouted(nodes[graph.nodes[j].id])
        invariant n.Some? ==> n.value in nodes && IsUnrouted(nodes[n.value])
        invariant n.Some? ==> forall j | 0 <= j < i && IsUnrouted(nodes[graph.nodes[j].id]) ::
               graph.nodes[j].id == n.value || Ordering.Less(n.value, graph.nodes[j].id)
      {
        var id := graph.nodes[i].id;
        assert id in Ids(graph);
        if IsUnrouted(nodes[id]) && (n.None? || Ordering.Less(id, n.value)) {
          forall j | 0 <= j < i && IsUnrouted(nodes[graph.nodes[j].id])
            ensures graph.nodes[j].id == id || Ordering.Less(id, graph.nodes[j].id)
          {
            if graph.nodes[j].id != n.value { Ordering.LessIsTransitive(id, n.value, graph.nodes[j].id); }
          }
          n := Some(id);
        } else if IsUnrouted(nodes[id]) {
          Ordering.LessIsTotal(id, n.value);
        }
      }
      EveryRowIsANode(graph, Walk(nodes, traversals, current));
    }

    // ---- transactions of the engine ----

    /** `_start_attempt`; `limit` is the clock's or the cost's answer for the node's own budget. */
    method StartAttempt(n: Id, limit: bool) returns (outcome: Start)
      requires Valid() && n in nodes && IsPicked(state, n) && nodes[n].state.Ready?
      modifies this
      ensures Valid() && (outcome == Barred <==> !IsGoing(old(state)))
      ensures outcome == Started <==> IsGoing(old(state)) && !limit && !IsRefused(old(state), old(nodes)[n])
      ensures match outcome
              case Started => state == Machine.StartAttempt(old(state), n) && log == old(log) + [Machine.Start(n)]
              case Refused => state == old(state) && log == old(log) && status == old(status)
              case Barred => state == old(state).(pc := Idle) && log == old(log) + [Fail(n)]
    {
      hide Leads, IsScheduled, Enabled, Apply;
      if status != Running || barrier != NoBarrier {
        BarredStartFails(graph, state, n);
        Record(Fail(n));
        return Barred;
      }
      var row := nodes[n];
      var counted := IsCounted(row.node.kind);
      if counted && calls >= budget.maxExecutorCalls { return Refused; }
      if limit || !WithinNodeCalls(row) { return Refused; }
      StartIsEnabled(graph, state, n);
      var number := row.attempts + 1;
      var trigger := if IsExternal(row.node.kind) then Triggering else row.trigger;
      nodes := nodes[n := row.(state := InFlight, attempts := number, result := None, routed := false, polls := 0, trigger := trigger)];
      if counted { calls := calls + 1; }
      Record(Machine.Start(n));
      return Started;
    }

    /** `_persist_result`. */
    method PersistResult(n: Id, r: Result)
      requires Valid() && state.pc == Holding(n, r) && n in nodes && r != Awaiting("")
      modifies this
      ensures Valid() && state == Machine.PersistResult(old(state), n, r) && log == old(log) + [Persist]
    {
      hide Leads, Enabled, Apply;
      var row := nodes[n];
      PersistIsEnabled(graph, state, n, r);
      if r.Awaiting? {
        CheckpointIsUpdate(nodes, n, r.externalHandle);
        if row.trigger != Untriggered { nodes := nodes[n := row.(trigger := Checkpointed(r.externalHandle))]; }
      } else {
        nodes := nodes[n := row.(state := Settled(OutcomeOf(r)), result := Some(r), routed := false)];
      }
      Record(Persist);
    }

    /** The transaction of `_finish`; a terminal run is left as it is. */
    method Finish(e: Ending) returns (finished: bool)
      modifies this`status, this`barrier, this`ending
      ensures finished == !old(status).Terminal?
      ensures if finished then status == Terminal(e.status) && barrier == NoBarrier && ending == Some(e)
              else status == old(status) && barrier == old(barrier) && ending == old(ending)
    {
      if status.Terminal? { return false; }
      status, barrier, ending := Terminal(e.status), NoBarrier, Some(e);
      return true;
    }

    /** `_freeze_report`: INSERT OR IGNORE. */
    method FreezeReport()
      requires Valid() && state.freezing
      modifies this
      ensures Valid() && log == old(log) + [Freeze]
      ensures state == old(state).(report := if old(report).None? && old(status).Terminal? then old(ending) else old(report), freezing := false)
    {
      hide Leads, Enabled, Apply;
      FreezeIsThis(graph, state);
      if report.None? && status.Terminal? { report := ending; }
      Record(Freeze);
    }

    /** `_finish` where the machine takes label `l` and the thread goes on at `to`. */
    method End(e: Ending, ghost l: Label, ghost to: Pc)
      requires Valid() && Enabled(graph, state, l) && Apply(graph, state, l) == FinishRun(state, e).(pc := to)
      modifies this
      ensures Valid() && state.pc == to && status.Terminal? && nodes == old(nodes)
      ensures log == old(log) + Logged(l, old(status), status)
      ensures if old(status).Terminal? then status == old(status) && ending == old(ending) && report == old(report)
              else status == Terminal(e.status) && ending == Some(e) && report.Some?
    {
      hide Leads, Enabled, Apply;
      var finished := Finish(e);
      Record(l);
      if finished { FreezeReport(); }
    }

    /** `_pause_at_safe_point`. */
    method PauseAtSafePoint()
      modifies this`status
      ensures status == Paused
    {
      if status == Paused { return; }
      status := Paused;
    }

    /** From the pause read to the pause stored; controls may come in between, and are not looked at. */
    method StorePause(world: World)
      requires Valid() && state.pc.Parking?
      modifies this, world`touches
      ensures Valid() && nodes == old(nodes) && status == Paused
      ensures state.pc == if old(state).pc.leaves then Idle else Top
      ensures log != [] && log[|log| - 1] == Park && OnlyControls(old(log), log[..|log| - 1])
    {
      hide Leads, Enabled, Apply, OnlyControls;
      Hook(world);
      ghost var l1 := log;
      ParkIs(graph, state);
      PauseAtSafePoint();
      Record(Park);
      assert log[..|log| - 1] == l1;
    }

    /** `_honor_barrier_after_result`, right after a result was made durable. */
    method HonorBarrierAfterResult(world: World)
      requires Valid() && state.pc.Settling?
      modifies this, world`touches
      ensures Valid() && nodes == old(nodes) && After(old(log), log, Honor) && OnlyLoop(old(log), log)
      ensures if state.pc == Top then IsAtRest(status) else state.pc == Routing(old(state).pc.node) && status != Paused
    {
      hide Leads, Enabled, Apply, Sound, OnlyControls, OnlyLoop, After;
      Hook(world);
      ControlsAreLoop(old(log), log);
      ghost var l1 := log;
      ValidIsReachable();
      BusyIsNotPaused(graph, state);
      HonorIsThis(graph, state);
      LoopIs(l1, Honor);
      AfterIs(old(log), l1, Honor);
      if barrier == PauseBarrier {
        Record(Honor);
        ghost var l2 := log;
        StorePause(world);
        PauseIsLoop(l2, log);
        LoopChains(l1, l2, log);
        AfterGrows(old(log), l2, log, Honor);
      } else if barrier == InterruptBarrier {
        Hook(world);
        ghost var l2 := log;
        ControlsChain(old(log), l1, l2);
        ControlsAreLoop(l1, l2);
        LoopIs(l2, Honor);
        AfterIs(old(log), l2, Honor);
        ValidIsReachable();
        BusyIsNotPaused(graph, state);
        HonorIsThis(graph, state);
        End(INTERRUPTED, Honor, Top);
        LoopChains(l1, l2, log);
      } else {
        Record(Honor);
        if !status.Terminal? {
          ghost var l2 := log;
          Hook(world);
          ControlsAreLoop(l2, log);
          LoopChains(l1, l2, log);
          AfterGrows(old(log), l2, log, Honor);
        }
      }
      LoopChains(old(log), l1, log);
    }

    /** `_route_result`: the first edge that leaves `n`, has traversals left and matches. */
    method RouteResult(n: Id, world: World)
      requires Valid() && state.pc == Routing(n) && status != Paused
      modifies this, world`touches
      ensures Valid() && state.pc == Top && Routes(old(log), log)
    {
      hide Leads, Enabled, Apply, Sound, Routes, OnlyControls, IsSelection, IsOpen;
      ValidIsReachable();
      RouteIsEnabled(graph, state, n);
      RunningOrNot(graph, state);
      if barrier != NoBarrier {
        Hook(world);
        ghost var l1 := log;
        HonorInsteadOfRouting(n, world);
        ControlsThenRoutes(old(log), l1, log);
        return;
      }
      var row := nodes[n];
      var selected := SelectEdge(graph.edges, traversals, n, row.result.value, row.attempts);
      Hook(world);
      ghost var l1 := log;
      if selected.None? {
        var e := TerminalStatusFor(row.result.value);
        ghost var l := RouteLabel(barrier, false);
        EndUnrouted(n, e);
        RoutesIs(old(log), l1, l);
      } else {
        FollowEdge(n, selected.value, world);
        ControlsThenRoutes(old(log), l1, log);
      }
    }

    /** A barrier was up when `_route_result` began; it is read once more. */
    method HonorInsteadOfRouting(n: Id, world: World)
      requires Valid() && state.pc == Routing(n) && status != Paused && status != Running
      modifies this, world`touches
      ensures Valid() && state.pc == Top && Routes(old(log), log)
    {
      hide Leads, Enabled, Apply, Sound, ChooseRoute, CommitRoute, ValidRoute, Routes, OnlyControls, FinishRun;
      ValidIsReachable();
      BusyIsNotPaused(graph, state);
      RouteIsEnabled(graph, state, n);
      SkipIsEnabled(graph, state);
      NoControls(log);
      if barrier == PauseBarrier {
        Record(Route);
        ghost var l1 := log;
        StorePause(world);
        RoutesThenParks(old(log), l1, log);
      } else if barrier == InterruptBarrier {
        Hook(world);
        ghost var l1 := log;
        ValidIsReachable();
        BusyIsNotPaused(graph, state);
        RouteIsEnabled(graph, state, n);
        SkipIsEnabled(graph, state);
        ghost var l := if barrier == InterruptBarrier then Route else Skip;
        End(INTERRUPTED, l, Top);
        RoutesIs(old(log), l1, l);
      } else {
        Record(Skip);
        RoutesIs(old(log), old(log), Skip);
      }
    }

    /** No edge is open: the run ends, whether or not a barrier has come up since. */
    method EndUnrouted(n: Id, e: Ending)
      requires Valid() && state.pc == Routing(n) && n in nodes && nodes[n].result.Some? && !nodes[n].result.value.Awaiting?
      requires e == EndingFor(nodes[n].result.value)
      requires IsSelection(graph.edges, traversals, n, nodes[n].result.value, nodes[n].attempts, None)
      modifies this
      ensures Valid() && state.pc == Top
      ensures log == old(log) + Logged(RouteLabel(old(barrier), false), old(status), status)
    {
      hide Leads, Enabled, Apply, Sound, IsSelection, FinishRun, EndingFor;
      ValidIsReachable();
      RouteIsEnabled(graph, state, n);
      RouteTakes(graph, state, n, None);
      End(e, RouteLabel(barrier, false), Top);
    }

    method TerminalStatusFor(r: Result) returns (e: Ending)
      requires !r.Awaiting?
      ensures e == EndingFor(r)
    {
      var status := StatusText(r);
      if status == "succeeded" || status == "passed" { return Ending(RunSucceeded, Completed, None); }
      if status == "failed" { return Ending(RunFailed, AcceptanceFailed, None); }
      if status == "blocked" { return Ending(RunFailed, BudgetExhausted, None); }
      if status == "cancelled" { return Ending(RunCancelled, HumanCancelled, None); }
      return Ending(RunErrored, ExecutionError, ErrorOf(r));
    }

    /** The transaction that takes the selected edge, rechecks the barrier, or finds the repairs exhausted. */
    method FollowEdge(n: Id, edge: Edge, world: World)
      requires Valid() && state.pc == Routing(n) && n in nodes && nodes[n].result.Some? && !nodes[n].result.value.Awaiting?
      requires IsSelection(graph.edges, traversals, n, nodes[n].result.value, nodes[n].attempts, Some(edge))
      modifies this, world`touches
      ensures Valid() && state.pc == Top && Routes(old(log), log)
    {
      hide Leads, Enabled, Apply, IsRepair, Advance, FinishRun, ValidRoute, Sound, IsSelection, Routes, OnlyControls, CommitRoute;
      ValidIsReachable();
      RouteIsEnabled(graph, state, n);
      RouteTakes(graph, state, n, Some(edge));
      if barrier != NoBarrier {
        Record(LateRoute(false));
        RoutesIs(old(log), old(log), LateRoute(false));
        return;
      }
      var row := nodes[n];
      var repair := IsRepair(edge, row.result.value);
      if (repair && repairs >= budget.maxRepairIterations)
         || (repair && row.node.budget.Some? && row.repairs >= row.node.budget.value.maxRepairIterations) {
        EndExhausted(n, edge, world);
        return;
      }
      TakeEdge(n, edge, repair);
      RoutesIs(old(log), old(log), Route);
    }

    method TakeEdge(n: Id, edge: Edge, repair: bool)
      requires Valid() && state.pc == Routing(n) && n in nodes && edge.from == n && edge.to in nodes
      requires Enabled(graph, state, Route) && Apply(graph, state, Route) == CommitRoute(state, Moves(edge, repair))
      modifies this
      ensures Valid() && state.pc == Top && log == old(log) + [Route]
    {
      hide Leads, Enabled, Apply, Advance;
      AdvanceIsUpdates(state.top, edge, repair);
      UpdateRoute(n, edge, repair);
      Record(Route);
    }

    /** The repairs are exhausted: the run ends, whether or not a barrier has come up since. */
    method EndExhausted(n: Id, edge: Edge, world: World)
      requires Valid() && state.pc == Routing(n) && n in nodes && nodes[n].result.Some? && !nodes[n].result.value.Awaiting?
      requires IsSelection(graph.edges, traversals, n, nodes[n].result.value, nodes[n].attempts, Some(edge))
      requires IsRepair(edge, nodes[n].result.value)
      requires repairs >= budget.maxRepairIterations || !WithinNodeRepairs(nodes[n])
      modifies this, world`touches
      ensures Valid() && state.pc == Top && Routes(old(log), log)
    {
      hide Leads, Enabled, Apply, IsRepair, FinishRun, Sound, IsSelection, Routes, OnlyControls;
      Hook(world);
      ghost var l1 := log;
      ValidIsReachable();
      RouteIsEnabled(graph, state, n);
      RouteTakes(graph, state, n, Some(edge));
      ghost var l := RouteLabel(barrier, true);
      End(EXHAUSTED, l, Top);
      RoutesIs(old(log), l1, l);
    }

    /** The UPDATEs of a traversal, in the order of the transaction. */
    method UpdateRoute(n: Id, edge: Edge, repair: bool)
      requires n in nodes && edge.from == n && edge.to in nodes
      modifies this`traversals, this`repairs, this`nodes, this`current
      ensures traversals == old(traversals)[(edge.from, edge.to) := Count(old(traversals), edge.from, edge.to) + 1]
      ensures nodes == RoutedRows(old(nodes), edge, repair) && current == Some(edge.to)
      ensures repairs == old(repairs) + if repair then 1 else 0
    {
      traversals := traversals[(edge.from, edge.to) :=
        (if (edge.from, edge.to) in traversals then traversals[(edge.from, edge.to)] else 0) + 1];
      if repair {
        repairs := repairs + 1;
        nodes := nodes[n := nodes[n].(repairs := nodes[n].repairs + 1)];
      }
      nodes := nodes[n := nodes[n].(routed := true)];
      nodes := nodes[edge.to := nodes[edge.to].(state := Ready, result := None, routed := false)];
      current := Some(edge.to);
    }

    /** `_continue_external`: poll the handle, or give up if there is none. An exception of the poll leaves `run`. */
    method ContinueExternal(n: Id, world: World) returns (raised: bool)
      requires Valid() && n in nodes && CanSchedule(state, n) && nodes[n].state.InFlight?
      requires !IsContainer(nodes[n].node.kind) && (HasHandle(n) ==> !nodes[n].node.kind.Join?)
      modifies this, world
      ensures Valid() && state.pc == (if raised then Idle else Top) && OnlyLoop(old(log), log)
      ensures old(HasHandle(n)) ==>
        match old(world.Report(nodes[n].node.kind))
        case None => raised && log == old(log) + [Fail(n)] && nodes == old(nodes)
        case Some(r) => old(log) + [Poll(n, r)] <= log && (raised <==> r == Awaiting(""))
      ensures !old(HasHandle(n)) ==>
        !raised && nodes == old(nodes) && status.Terminal? && (After(old(log), log, GiveUp(n)) || After(old(log), log, Skip))
    {
      hide Leads, Enabled, Apply, CanSchedule, Fits, FinishRun, OnlyLoop, After;
      if !HasHandle(n) {
        GiveUpOn(n, world);
        return false;
      }
      var r := Query(n, world);
      if r.None? { return true; }
      ghost var l1 := log;
      Hook(world);
      ControlsAreLoop(l1, log);
      LoopChains(old(log), l1, log);
      ghost var l2 := log;
      raised := Absorb(n, r.value, world);
      LoopChains(old(log), l2, log);
    }

    function HasHandle(n: Id): bool
      requires n in nodes
      reads this`nodes
    {
      nodes[n].trigger.Checkpointed?
    }

    /** No handle was checkpointed: the run ends as uncertain, unless it has ended meanwhile. */
    method GiveUpOn(n: Id, world: World)
      requires Valid() && n in nodes && CanSchedule(state, n) && nodes[n].state.InFlight?
      requires !IsContainer(nodes[n].node.kind) && !HasHandle(n)
      modifies this, world`touches
      ensures Valid() && state.pc == Top && OnlyLoop(old(log), log) && nodes == old(nodes) && status.Terminal?
      ensures After(old(log), log, GiveUp(n)) || After(old(log), log, Skip)
    {
      hide Leads, Enabled, Apply, IsScheduled, Fits, FinishRun, OnlyLoop, After, OnlyControls;
      Hook(world);
      ghost var l1 := log;
      ControlsAreLoop(old(log), l1);
      ghost var l := if status.Terminal? then Skip else GiveUp(n);
      if !status.Terminal? { GiveUpIsEnabled(graph, state, n); } else { SkipAtTop(graph, state); }
      AfterIs(old(log), l1, l);
      LoopIs(l1, l);
      End(UNCERTAIN, l, Top);
      LoopChains(old(log), l1, log);
    }

    /** `verifier.query` of the checkpointed handle. */
    method Query(n: Id, world: World) returns (r: Option<Result>)
      requires Valid() && n in nodes && CanSchedule(state, n) && nodes[n].state.InFlight? && HasHandle(n)
      requires !IsContainer(nodes[n].node.kind) && !nodes[n].node.kind.Join?
      modifies this, world
      ensures Valid() && n in nodes && r == old(world.Report(nodes[n].node.kind)) && OnlyLoop(old(log), log)
      ensures match r
              case None => state.pc == Idle && log == old(log) + [Fail(n)] && nodes == old(nodes)
              case Some(a) => state.pc == Holding(n, a) && log == old(log) + [Poll(n, a)]
    {
      hide Leads, Enabled, Apply, IsScheduled, Fits, OnlyLoop;
      var row := nodes[n];
      r := world.Query(row.node.kind);
      if r.None? {
        PollCanFail(graph, state, n);
        LoopIs(log, Fail(n));
        Record(Fail(n));
      } else {
        PollIsEnabled(graph, state, n, r.value);
        nodes := nodes[n := row.(polls := row.polls + 1)];
        LoopIs(log, Poll(n, r.value));
        Record(Poll(n, r.value));
      }
    }

    /** What follows an answer: persist it, honor a barrier, route. */
    method Absorb(n: Id, r: Result, world: World) returns (raised: bool)
      requires Valid() && state.pc == Holding(n, r) && n in nodes
      modifies this, world`touches
      ensures Valid() && state.pc == (if raised then Idle else Top) && OnlyLoop(old(log), log)
      ensures raised == (r == Awaiting("")) && old(log) + [if raised then Abort else Persist] <= log
    {
      hide Leads, OnlyLoop, Mirrors, After, Enabled, Apply;
      raised := TakeResult(n, r);
      LoopIs(old(log), if raised then Abort else Persist);
      if !raised && !r.Awaiting? {
        ghost var l1 := log;
        HonorBarrierAfterResult(world);
        LoopChains(old(log), l1, log);
        ghost var l2 := log;
        RouteIfRunning(n, world);
        LoopChains(old(log), l2, log);
        LoopChains(l1, l2, log);
        LoopGrows(l1, log);
      }
    }

    /** Only a run that is still running routes its result now. */
    method RouteIfRunning(n: Id, world: World)
      requires Valid()
      requires if state.pc == Top then IsAtRest(status) else state.pc == Routing(n) && status != Paused
      modifies this, world`touches
      ensures Valid() && state.pc == Top && OnlyLoop(old(log), log)
    {
      hide Leads, OnlyLoop, Enabled, Apply, Routes;
      LoopStarts(log);
      if status == Running {
        RouteResult(n, world);
        RoutesAreLoop(old(log), log);
      } else if state.pc.Routing? {
        SkipIsEnabled(graph, state);
        LoopIs(log, Skip);
        Record(Skip);
      }
    }

    /** `_persist_result` as its callers see it: a pending answer must name a handle. */
    method TakeResult(n: Id, r: Result) returns (raised: bool)
      requires Valid() && state.pc == Holding(n, r) && n in nodes
      modifies this
      ensures Valid() && log == old(log) + [if raised then Abort else Persist] && raised == (r == Awaiting(""))
      ensures state.pc == if raised then Idle else if r.Awaiting? then Top else Settling(n)
    {
      hide Leads, Enabled, Apply;
      if r == Awaiting("") {
        AbortIsEnabled(graph, state);
        Record(Abort);
        return true;
      }
      PersistResult(n, r);
      return false;
    }

    /** `_invoke` for a node that an executor or verifier answers; controls may come meanwhile. */
    method Call(n: Id, world: World) returns (r: Result)
      requires Valid() && n in nodes && state.pc == Calling(n)
      requires !IsContainer(nodes[n].node.kind) && !nodes[n].node.kind.Join?
      modifies this, world
      ensures Valid() && state.pc == Holding(n, r) && n in nodes && nodes == old(nodes) && OnlyLive(old(log), log)
      ensures r == old(world.Reply(nodes[n].node.kind)) && world.limits == old(world.limits)
      ensures old(log) < log && log[|log| - 1] == Answer(r)
    {
      hide Leads, Enabled, Apply, Fits, OnlyLive;
      Hook(world);
      ControlsAreLive(old(log), log);
      r := world.Ask(nodes[n].node.kind);
      AnswerIs(graph, state, n, r);
      ghost var l1 := log;
      Record(Answer(r));
      LiveIs(l1, Answer(r));
      LiveChains(old(log), l1, log);
    }

    /** `ParallelCoordinator.join`: the source's persisted parallel result, or an exception. */
    method Join(n: Id) returns (r: Result)
      requires Valid() && n in nodes && state.pc == Calling(n) && nodes[n].node.kind.Join?
      modifies this
      ensures Valid() && state.pc == Holding(n, r) && nodes == old(nodes) && log == old(log) + [AnswerJoin] && !r.Awaiting?
    {
      hide Leads, Enabled, Apply;
      var source := nodes[n].node.kind.parallelNodeId;
      r := BOUNDARY;
      if source in nodes && nodes[source].result.Some? && nodes[source].result.value.Joined? {
        r := nodes[source].result.value;
      }
      JoinIs(graph, state, n);
      Record(AnswerJoin);
    }

    // ---- controls ----

    /** `ParallelCoordinator._cancel_branches`. */
    method CancelBranchRows(includeActive: bool)
      modifies this`branches
      ensures branches == CancelBranches(old(branches), includeActive)
    {
      var rows := branches.Keys;
      while rows != {}
        invariant rows <= old(branches).Keys == branches.Keys
        invariant forall slot | slot in branches ::
          branches[slot] == if slot in rows then old(branches)[slot] else CancelBranch(slot, old(branches)[slot], includeActive)
        decreases |rows|
      {
        var slot :| slot in rows;
        var b := branches[slot];
        if b.status.Pending? || (includeActive && b.status.Active?) {
          branches := branches[slot := b.(status := Closed(Cancelled), result := Some(CancelledResult(slot)))];
        }
        rows := rows - {slot};
      }
    }

    /** What no control touches: the work done, the place of the loop and the pool; and how far a control moves a run. */
    twostate predicate KeepsWork()
      reads this
    {
      && state.pc == old(state).pc && threads == old(threads) && nodes == old(nodes) && traversals == old(traversals)
      && calls == old(calls) && repairs == old(repairs) && budget == old(budget)
      && CanBecome(old(status), status) && (IsEnded(old(status), status) ==> AllSettled(branches) && status == Terminal(RunCancelled))
      && (AllSettled(old(branches)) ==> AllSettled(branches))
    }

    /** `control` for a state change; an interrupt also cancels what is still pending. */
    method Control(action: Action) returns (changed: bool)
      requires Valid()
      modifies this
      ensures Valid() && KeepsWork()
      ensures changed == IsAccepted(old(status), action)
      ensures log == old(log) + if changed && action.Interrupt? then [Machine.Control(action), Sweep] else [Machine.Control(action)]
    {
      hide Leads, Enabled, Apply, ApplyControl, AllSettled;
      ControlIsEnabled(graph, state, action);
      ControlIsUpdate(state, action);
      changed := UpdateControl(action);
      Record(Machine.Control(action));
      if action.Interrupt? && changed { CancelPending(); }
    }

    /** `ParallelCoordinator.cancel_pending`. */
    method CancelPending()
      requires Valid() && state.sweeping
      modifies this
      ensures Valid() && KeepsWork()
      ensures log == old(log) + [Sweep]
    {
      hide Leads, Enabled, Apply, AllSettled, CancelBranches;
      SweepIsEnabled(graph, state);
      CancelSettles(branches);
      CancelBranchRows(false);
      Record(Sweep);
    }

    method UpdateControl(action: Action) returns (changed: bool)
      modifies this`status, this`barrier
      ensures changed == IsAccepted(old(status), action)
      ensures if changed then status == Controlled(action).0 && barrier == Controlled(action).1
              else status == old(status) && barrier == old(barrier)
    {
      if action.Pause? && status == Running {
        status, barrier := PauseRequested, PauseBarrier;
        return true;
      } else if action.ResumeRun? && status == Paused {
        status, barrier := Running, NoBarrier;
        return true;
      } else if action.Interrupt? && (status == Running || status == PauseRequested || status == Paused) {
        status, barrier := Quiescing, InterruptBarrier;
        return true;
      }
      return false;
    }

    /** `cancel`, from its first transaction to the end of the run. */
    method Cancel()
      requires Valid()
      modifies this
      ensures Valid() && KeepsWork() && status.Terminal?
      ensures log == old(log) + Logged(Machine.Cancel, old(status), status)
      ensures !old(status).Terminal? ==> ending == Some(CANCELLED) && report.Some?
    {
      hide Leads, Enabled, Apply, AllSettled, CancelBranches;
      CancelIsEnabled(graph, state);
      CancelSettles(branches);
      if status.Terminal? {
        Record(Machine.Cancel);
        return;
      }
      CancelBranchRows(true);
      var finished := Finish(CANCELLED);
      Record(Machine.Cancel);
      FreezeReport();
    }

    /** Whatever someone does to the run while the loop or a branch is between two transactions. */
    method Hook(world: World)
      requires Valid()
      modifies this, world`touches
      ensures Valid() && KeepsWork()
      ensures OnlyControls(old(log), log)
      ensures old(world.touches) != [] ==> |log| >= |old(log)| + |old(world.touches)[0]|
      ensures log == old(log) ==> state == old(state)
    {
      hide Leads, Mirrors, OnlyControls, AllSettled;
      NoControls(log);
      var touches := world.NextTouches();
      for i := 0 to |touches|
        invariant Valid() && KeepsWork()
        invariant OnlyControls(old(log), log) && |log| >= |old(log)| + i && (i == 0 ==> state == old(state))
      {
        ghost var l0 := log;
        ApplyTouch(touches[i]);
        ControlsChain(old(log), l0, log);
      }
    }

    method ApplyTouch(touch: Touch)
      requires Valid()
      modifies this
      ensures Valid() && KeepsWork() && OnlyControls(old(log), log) && |log| > |old(log)|
    {
      hide Leads, Mirrors, AllSettled;
      match touch {
        case Press(action) => var _ := Control(action);
        case CancelRun => Cancel();
      }
    }

    // ---- crash and recovery ----

    /** The process dies: only the rows are left. */
    method Crash()
      requires Valid()
      modifies this
      ensures Valid() && state.pc == Dead && log == old(log) + [Machine.Crash]
    {
      hide Leads;
      threads := map[];
      Record(Machine.Crash);
    }

    /** `recover`. */
    method Recover()
      requires Valid() && (state.pc == Dead || state.pc == Idle)
      modifies this
      ensures Valid() && state.pc == Idle
      ensures log == old(log) + Logged(Machine.Recover, old(status), status)
      ensures !old(status).Terminal? && IsUncertain(old(state)) ==> ending == Some(UNCERTAIN) && report.Some?
    {
      hide Leads, Enabled, Apply;
      var uncertain :=
        || (exists id | id in nodes :: nodes[id].trigger.Triggering?)
        || (exists slot | slot in branches :: exists id | id in branches[slot].walk.rows ::
              branches[slot].walk.rows[id].trigger.Triggering?);
      var localRunning := exists id | id in nodes :: IsCutOff(nodes[id]);
      RecoverIsEnabled(graph, state);
      if uncertain || localRunning { End(UNCERTAIN, Machine.Recover, Idle); } else { Record(Machine.Recover); }
    }
  }

  // ---- what the queries and transactions compute ----

  /** What the loop logs while it deals with an answer. */
  predicate IsHandling(l: Label) {
    || l.Poll? || l.Fail? || l.GiveUp? || l.Persist? || l.Abort? || l.Honor? || l.Park?
    || l.Route? || l.LateRoute? || l.Skip?
  }

  predicate IsControl(l: Label) { l.Control? || l.Sweep? || l.Cancel? || l.Freeze? }

  /** Labels of dealing with an answer, with controls in between and the freezes of what ends. */
  ghost predicate OnlyLoop(before: seq<Label>, after: seq<Label>) {
    before <= after && forall l | l in after[|before|..] :: IsHandling(l) || IsControl(l)
  }

  /** Controls at most, and then `l`. */
  ghost predicate After(before: seq<Label>, after: seq<Label>, l: Label) {
    exists k: nat :: k < |after| && OnlyControls(before, after[..k]) && after[k] == l
  }

  lemma AfterIs(before: seq<Label>, mid: seq<Label>, l: Label)
    requires OnlyControls(before, mid)
    ensures After(before, mid + [l], l) && After(before, mid + [l, Freeze], l)
  {
    assert (mid + [l])[..|mid|] == mid && (mid + [l, Freeze])[..|mid|] == mid;
    assert (mid + [l])[|mid|] == l && (mid + [l, Freeze])[|mid|] == l;
  }

  lemma AfterGrows(before: seq<Label>, mid: seq<Label>, after: seq<Label>, l: Label)
    requires After(before, mid, l) && mid <= after
    ensures After(before, after, l)
  {
    var k: nat :| k < |mid| && OnlyControls(before, mid[..k]) && mid[k] == l;
    assert after[..k] == mid[..k] && after[k] == l;
  }

  predicate IsRouting(l: Label) { l.Route? || l.LateRoute? || l.Skip? }

  /** Controls, then one routing, then the pause it found, with controls and freezes around it. */
  ghost predicate Routes(before: seq<Label>, after: seq<Label>) {
    exists k: nat :: IsRouteAt(before, after, k)
  }

  ghost predicate IsRouteAt(before: seq<Label>, after: seq<Label>, k: nat) {
    && |before| <= k < |after| && OnlyControls(before, after[..k]) && IsRouting(after[k])
    && forall l | l in after[k + 1..] :: IsControl(l) || l.Park?
  }

  lemma RoutesIs(before: seq<Label>, mid: seq<Label>, l: Label)
    requires OnlyControls(before, mid) && IsRouting(l)
    ensures Routes(before, mid + [l]) && Routes(before, mid + [l, Freeze])
  {
    assert (mid + [l])[..|mid|] == mid && (mid + [l, Freeze])[..|mid|] == mid;
    assert IsRouteAt(before, mid + [l], |mid|);
    assert IsRouteAt(before, mid + [l, Freeze], |mid|);
  }

  /** The route found a pause, and the pause is stored. */
  lemma RoutesThenParks(before: seq<Label>, mid: seq<Label>, after: seq<Label>)
    requires mid == before + [Route] && after != [] && after[|after| - 1] == Park && OnlyControls(mid, after[..|after| - 1])
    ensures Routes(before, after)
  {
    var tail := after[..|after| - 1];
    assert after == tail + [Park] && after[..|before|] == before;
    assert after[|before| + 1..] == tail[|mid|..] + [Park];
    assert IsRouteAt(before, after, |before|);
  }

  lemma ControlsThenRoutes(a: seq<Label>, b: seq<Label>, c: seq<Label>)
    requires OnlyControls(a, b) && Routes(b, c)
    ensures Routes(a, c)
  {
    var k: nat :| IsRouteAt(b, c, k);
    assert c[..k][|a|..] == b[|a|..] + c[..k][|b|..];
    assert IsRouteAt(a, c, k);
  }

  /** Routing is part of dealing with an answer, and logs something. */
  lemma RoutesAreLoop(before: seq<Label>, after: seq<Label>)
    requires Routes(before, after)
    ensures OnlyLoop(before, after) && OnlyLive(before, after) && before < after
  {
    var k: nat :| IsRouteAt(before, after, k);
    var mid := after[..k];
    assert after[|before|..] == mid[|before|..] + [after[k]] + after[k + 1..];
  }

  lemma PauseIsLoop(before: seq<Label>, after: seq<Label>)
    requires after != [] && after[|after| - 1] == Park && OnlyControls(before, after[..|after| - 1])
    ensures OnlyLoop(before, after) && OnlyLive(before, after)
  {
    var mid := after[..|after| - 1];
    assert after[|before|..] == mid[|before|..] + [Park];
  }

  lemma ControlsAreLoop(before: seq<Label>, after: seq<Label>)
    requires OnlyControls(before, after)
    ensures OnlyLoop(before, after)
  {
  }

  lemma LoopGrows(before: seq<Label>, after: seq<Label>)
    requires OnlyLoop(before, after)
    ensures before <= after
  {
  }

  lemma LiveGrows(before: seq<Label>, after: seq<Label>)
    requires OnlyLive(before, after)
    ensures before <= after
  {
  }

  lemma LoopStarts(before: seq<Label>)
    ensures OnlyLoop(before, before)
  {
  }

  lemma ControlsChain(a: seq<Label>, b: seq<Label>, c: seq<Label>)
    requires OnlyControls(a, b) && OnlyControls(b, c)
    ensures OnlyControls(a, c)
  {
    assert c[|a|..] == b[|a|..] + c[|b|..];
  }

  lemma NoControls(before: seq<Label>)
    ensures OnlyControls(before, before)
  {
  }

  /** No crash, no recovery, no restart: the process is alive throughout. */
  ghost predicate OnlyLive(before: seq<Label>, after: seq<Label>) {
    before <= after && forall l | l in after[|before|..] :: !l.Crash? && !l.Recover? && !l.Restart?
  }

  lemma LiveStarts(before: seq<Label>)
    ensures OnlyLive(before, before)
  {
  }

  lemma LiveIs(before: seq<Label>, l: Label)
    requires !l.Crash? && !l.Recover? && !l.Restart?
    ensures OnlyLive(before, before + [l]) && OnlyLive(before, before + [l, Freeze])
  {
  }

  lemma LiveChains(a: seq<Label>, b: seq<Label>, c: seq<Label>)
    requires OnlyLive(a, b) && OnlyLive(b, c)
    ensures OnlyLive(a, c)
  {
    assert c[|a|..] == b[|a|..] + c[|b|..];
  }

  lemma ControlsAreLive(before: seq<Label>, after: seq<Label>)
    requires OnlyControls(before, after)
    ensures OnlyLive(before, after)
  {
  }

  lemma LoopIsLive(before: seq<Label>, after: seq<Label>)
    requires OnlyLoop(before, after)
    ensures OnlyLive(before, after)
  {
  }

  ghost predicate OnlyControls(before: seq<Label>, after: seq<Label>) {
    before <= after && forall l | l in after[|before|..] :: IsControl(l)
  }

  lemma LoopIs(before: seq<Label>, l: Label)
    requires IsHandling(l)
    ensures OnlyLoop(before, before + [l]) && OnlyLoop(before, before + [l, Freeze])
  {
  }

  lemma LoopChains(a: seq<Label>, b: seq<Label>, c: seq<Label>)
    requires OnlyLoop(a, b) && OnlyLoop(b, c)
    ensures OnlyLoop(a, c)
  {
    assert c[|a|..] == b[|a|..] + c[|b|..];
  }

  /** The node rows after a traversal. */
  function RoutedRows(rows: map<Id, Row>, e: Edge, repair: bool): map<Id, Row>
    requires e.from in rows && e.to in rows
  {
    Advance(Walk(rows, map[], None), e, repair).rows
  }

  lemma AdvanceIsUpdates(w: Walk, e: Edge, repair: bool)
    requires e.from in w.rows && e.to in w.rows
    ensures Advance(w, e, repair)
      == Walk(RoutedRows(w.rows, e, repair), w.counts[(e.from, e.to) := Count(w.counts, e.from, e.to) + 1], Some(e.to))
  {
  }

  lemma RouteIsEnabled(g: Plan, s: State, n: Id)
    requires Sound(g, s) && s.pc == Routing(n)
    ensures Enabled(g, s, Route) && ValidRoute(g, s, n) && s.top.at == Some(n)
    ensures n in s.top.rows && s.top.rows[n].result.Some? && !s.top.rows[n].result.value.Awaiting?
    ensures s.barrier == PauseBarrier ==> Apply(g, s, Route) == s.(pc := Parking(false))
    ensures s.barrier == InterruptBarrier ==> Apply(g, s, Route) == FinishRun(s, INTERRUPTED).(pc := Top)
  {
    hide Sound, FinishRun, Select;
    RouteKeepsSound(g, s);
    TokenRow(g, s);
  }

  /** The label of a route that ends the run: a late one if a barrier has come up. */
  function RouteLabel(barrier: Barrier, exhausted: bool): Label {
    if barrier == NoBarrier then Route else LateRoute(exhausted)
  }

  lemma SelectionIs(g: Plan, s: State, n: Id, selected: Option<Edge>)
    requires ValidRoute(g, s, n)
    requires IsSelection(g.edges, s.top.counts, n, s.top.rows[n].result.value, s.top.rows[n].attempts, selected)
    ensures selected == Select(g.edges, s.top.counts, n, s.top.rows[n].result.value, s.top.rows[n].attempts)
  {
    hide IsSelection;
    var row := s.top.rows[n];
    SelectIsFirst(g.edges, s.top.counts, n, row.result.value, row.attempts);
    SelectionIsUnique(g.edges, s.top.counts, n, row.result.value, row.attempts, selected,
                      Select(g.edges, s.top.counts, n, row.result.value, row.attempts));
  }

  /** What the two route labels compute. */
  lemma RouteLabels(g: Plan, s: State)
    requires s.pc.Routing? && ValidRoute(g, s, s.pc.node)
    ensures Enabled(g, s, Route) && Apply(g, s, Route) == CommitRoute(s, ChooseRoute(g, s, s.pc.node))
    ensures s.barrier != NoBarrier ==> forall exhausted ::
      Enabled(g, s, LateRoute(exhausted))
      && Apply(g, s, LateRoute(exhausted)) == CommitLateRoute(s, ChooseLateRoute(g, s, s.pc.node, exhausted))
  {
    hide ValidRoute, ChooseRoute, CommitRoute, ChooseLateRoute, CommitLateRoute;
  }

  /** What the selection makes of the route, with and without a barrier. */
  lemma RouteTakes(g: Plan, s: State, n: Id, selected: Option<Edge>)
    requires Enabled(g, s, Route) && s.pc == Routing(n) && ValidRoute(g, s, n)
    requires IsSelection(g.edges, s.top.counts, n, s.top.rows[n].result.value, s.top.rows[n].attempts, selected)
    ensures s.barrier != NoBarrier ==> forall exhausted :: Enabled(g, s, LateRoute(exhausted))
    ensures selected.None? ==>
      Enabled(g, s, RouteLabel(s.barrier, false))
      && Apply(g, s, RouteLabel(s.barrier, false)) == FinishRun(s, EndingFor(s.top.rows[n].result.value)).(pc := Top)
    ensures selected.Some? ==>
      var row, e := s.top.rows[n], selected.value;
      var repair := IsRepair(e, row.result.value);
      && e.from == n && e.to in s.top.rows
      && (s.barrier != NoBarrier ==> Apply(g, s, LateRoute(false)) == s.(pc := Top))
      && (if repair && (s.repairs >= s.budget.maxRepairIterations || !WithinNodeRepairs(row))
          then Enabled(g, s, RouteLabel(s.barrier, true))
               && Apply(g, s, RouteLabel(s.barrier, true)) == FinishRun(s, EXHAUSTED).(pc := Top)
          else s.barrier == NoBarrier ==> Apply(g, s, Route) == CommitRoute(s, Moves(e, repair)))
  {
    hide IsSelection, IsRepair, FinishRun, EndingFor, Enabled, Apply;
    RouteLabels(g, s);
    SameRoute(g, s, n);
    SelectionIs(g, s, n, selected);
  }

  lemma ParkIs(g: Plan, s: State)
    requires s.pc.Parking?
    ensures Enabled(g, s, Park) && Apply(g, s, Park) == s.(status := Paused, pc := if s.pc.leaves then Idle else Top)
  {
  }

  /** A turn cut short by a control; in a run that is over it ends as any ending would leave it. */
  lemma SkipIsEnabled(g: Plan, s: State)
    requires s.pc.Routing?
    ensures !IsGoing(s) ==> Enabled(g, s, Skip) && Apply(g, s, Skip) == s.(pc := Top)
    ensures IsOver(s) ==> FinishRun(s, INTERRUPTED).(pc := Top) == s.(pc := Top)
  {
  }

  lemma SkipAtTop(g: Plan, s: State)
    requires s.pc == Top && IsOver(s)
    ensures Enabled(g, s, Skip) && Apply(g, s, Skip) == FinishRun(s, UNCERTAIN).(pc := Top)
  {
  }

  lemma BarredStartFails(g: Plan, s: State, n: Id)
    requires IsPicked(s, n) && s.top.rows[n].state.Ready? && !IsGoing(s)
    ensures Enabled(g, s, Fail(n)) && Apply(g, s, Fail(n)) == s.(pc := Idle)
  {
    hide IsScheduled;
  }

  lemma PollCanFail(g: Plan, s: State, n: Id)
    requires CanSchedule(s, n) && IsPollable(s.top.rows[n])
    ensures Enabled(g, s, Fail(n)) && Apply(g, s, Fail(n)) == s.(pc := Idle)
  {
    hide IsScheduled;
  }

  lemma GiveUpIsEnabled(g: Plan, s: State, n: Id)
    requires IsPicked(s, n) && !IsOver(s) && s.top.rows[n].state.InFlight? && !IsContainer(s.top.rows[n].node.kind)
    requires !s.top.rows[n].trigger.Checkpointed?
    ensures Enabled(g, s, GiveUp(n)) && Apply(g, s, GiveUp(n)) == FinishRun(s, UNCERTAIN).(pc := Top)
  {
    hide IsScheduled;
  }

  lemma PollIsEnabled(g: Plan, s: State, n: Id, r: Result)
    requires CanSchedule(s, n) && s.top.rows[n].state.InFlight? && !IsContainer(s.top.rows[n].node.kind)
    requires s.top.rows[n].trigger.Checkpointed? && Fits(s.top.rows[n].node.kind, r)
    ensures Enabled(g, s, Poll(n, r)) && Apply(g, s, Poll(n, r)) == s.(top := Polled(s.top, n), pc := Holding(n, r))
  {
    hide IsScheduled, Fits, Polled;
  }

  lemma AnswerIs(g: Plan, s: State, n: Id, r: Result)
    requires n in s.top.rows && s.pc == Calling(n) && Fits(s.top.rows[n].node.kind, r)
    requires !IsContainer(s.top.rows[n].node.kind) && !s.top.rows[n].node.kind.Join?
    ensures Enabled(g, s, Answer(r))
    ensures Apply(g, s, Answer(r)) == s.(pc := Holding(n, r), invoked := s.invoked + [MainAttempt(s, n)])
  {
    hide Fits, MainAttempt;
  }

  lemma JoinIs(g: Plan, s: State, n: Id)
    requires n in s.top.rows && s.pc == Calling(n) && s.top.rows[n].node.kind.Join?
    ensures Enabled(g, s, AnswerJoin) && Apply(g, s, AnswerJoin) == s.(pc := Holding(n, JoinResult(s, n)))
  {
    hide JoinResult;
  }

  lemma AbortIsEnabled(g: Plan, s: State)
    requires s.pc.Holding? && s.pc.result == Awaiting("")
    ensures Enabled(g, s, Abort) && Apply(g, s, Abort) == s.(pc := Idle)
  {
  }

  /** From which statuses a control is accepted. */
  predicate IsAccepted(status: RunStatus, a: Action) {
    match a
    case Pause => status == Running
    case ResumeRun => status == Paused
    case Interrupt => status == Running || status == PauseRequested || status == Paused
    case OtherAction => false
  }

  function Controlled(a: Action): (RunStatus, Barrier) {
    match a
    case Pause => (PauseRequested, PauseBarrier)
    case ResumeRun => (Running, NoBarrier)
    case _ => (Quiescing, InterruptBarrier)
  }

  lemma ControlIsUpdate(s: State, a: Action)
    ensures ApplyControl(s, a) ==
      if IsAccepted(s.status, a)
      then s.(status := Controlled(a).0, barrier := Controlled(a).1, sweeping := s.sweeping || a.Interrupt?) else s
  {
  }

  lemma ControlIsEnabled(g: Plan, s: State, a: Action)
    ensures Enabled(g, s, Machine.Control(a)) && Apply(g, s, Machine.Control(a)) == ApplyControl(s, a)
  {
  }

  lemma SweepIsEnabled(g: Plan, s: State)
    requires s.sweeping
    ensures Enabled(g, s, Sweep)
    ensures Apply(g, s, Sweep) == s.(branches := CancelBranches(s.branches, false), sweeping := false)
  {
  }

  lemma CancelIsEnabled(g: Plan, s: State)
    ensures Enabled(g, s, Machine.Cancel)
    ensures Apply(g, s, Machine.Cancel) ==
      if IsOver(s) then s else FinishRun(s.(branches := CancelBranches(s.branches, true)), CANCELLED)
  {
  }

  lemma RestartIs(g: Plan, s: State, budget: Budget)
    ensures Enabled(g, s, Restart(budget)) && Apply(g, s, Restart(budget)) == RestartFrom(s, budget)
    ensures var s' := RestartFrom(s, budget);
      && s'.status == Running && s'.barrier == NoBarrier && s'.ending.None? && s'.report.None? && s'.budget == budget
      && s'.calls == 0 && s'.repairs == 0 && s'.top.rows == (map id | id in s.top.rows :: InheritRow(s.top.rows[id], false))
      && s'.top.counts == s.top.counts && s'.top.at == s.top.at
      && s'.branches == InheritBranches(s.branches) && s'.threads == map[]
  {
    hide InheritBranches, InheritRow;
  }

  lemma RecoverIsEnabled(g: Plan, s: State)
    requires s.pc == Dead || s.pc == Idle
    ensures Enabled(g, s, Machine.Recover)
    ensures Apply(g, s, Machine.Recover) == (if IsUncertain(s) then FinishRun(s, UNCERTAIN) else s).(pc := Idle)
  {
    hide IsUncertain, FinishRun;
  }

  /** What the status of a run may have become by controls that nobody pauses or resumes at rest. */
  predicate CanBecome(before: RunStatus, after: RunStatus) {
    match before
    case Running => after != Paused
    case PauseRequested => after != Paused && after != Running
    case Quiescing => after == Quiescing || after.Terminal?
    case Paused => true
    case Terminal(_) => after == before
  }

  /** A control ended the run: it was cancelled. */
  predicate IsEnded(before: RunStatus, after: RunStatus) { !before.Terminal? && after.Terminal? }

  predicate AllSettled(bs: map<Slot, Branch>) { forall slot | slot in bs :: !IsUnsettled(bs[slot]) }

  lemma CancelSettles(bs: map<Slot, Branch>)
    ensures AllSettled(CancelBranches(bs, true))
    ensures AllSettled(bs) ==> AllSettled(CancelBranches(bs, false))
  {
  }

  predicate IsActive(r: Row) { r.state.InFlight? || r.state.Ready? }

  /** ORDER BY running first, node_id. */
  predicate IsSooner(rows: map<Id, Row>, a: Id, b: Id)
    requires a in rows && b in rows
  {
    || (rows[a].state.InFlight? && !rows[b].state.InFlight?)
    || (rows[a].state.InFlight? == rows[b].state.InFlight? && Ordering.Less(a, b))
  }

  lemma SoonerIsTransitive(rows: map<Id, Row>, a: Id, b: Id, c: Id)
    requires a in rows && b in rows && c in rows && IsSooner(rows, a, b) && IsSooner(rows, b, c)
    ensures IsSooner(rows, a, c)
  {
    if Ordering.Less(a, b) && Ordering.Less(b, c) { Ordering.LessIsTransitive(a, b, c); }
  }

  lemma SoonerIsTotal(rows: map<Id, Row>, a: Id, b: Id)
    requires a in rows && b in rows && !IsSooner(rows, a, b)
    ensures a == b || IsSooner(rows, b, a)
  {
    Ordering.LessIsTotal(a, b);
  }

  lemma EveryRowIsANode(p: Plan, w: Walk)
    requires KeepsRows(p, w)
    ensures forall m | m in w.rows :: exists j :: 0 <= j < |p.nodes| && p.nodes[j].id == m
  {
    forall m | m in w.rows ensures exists j :: 0 <= j < |p.nodes| && p.nodes[j].id == m {
      var j :| 0 <= j < |p.nodes| && p.nodes[j] == w.rows[m].node;
    }
  }

  lemma SoonestIsScheduled(rows: map<Id, Row>, n: Id)
    requires n in rows && IsActive(rows[n])
    requires forall m | m in rows && IsActive(rows[m]) :: m == n || IsSooner(rows, n, m)
    ensures IsScheduled(rows, n)
  {
  }

  lemma StartIsEnabled(g: Plan, s: State, n: Id)
    requires CanSchedule(s, n) && s.top.rows[n].state.Ready? && !IsRefused(s, s.top.rows[n])
    ensures Enabled(g, s, Start(n)) && Apply(g, s, Start(n)) == Machine.StartAttempt(s, n)
  {
    hide IsScheduled, IsRefused, Machine.StartAttempt;
  }

  lemma PersistIsEnabled(g: Plan, s: State, n: Id, r: Result)
    requires n in s.top.rows && s.pc == Holding(n, r) && r != Awaiting("")
    ensures Enabled(g, s, Persist) && Apply(g, s, Persist) == Machine.PersistResult(s, n, r)
  {
    hide Machine.PersistResult;
  }

  function Handled(rows: map<Id, Row>, n: Id, handle: string): map<Id, Row>
    requires n in rows
  {
    if rows[n].trigger == Untriggered then rows else rows[n := rows[n].(trigger := Checkpointed(handle))]
  }

  lemma CheckpointIsUpdate(rows: map<Id, Row>, n: Id, handle: string)
    requires n in rows
    ensures forall counts, at :: Checkpoint(Walk(rows, counts, at), n, handle) == Walk(Handled(rows, n, handle), counts, at)
  {
    assert rows == rows[n := rows[n]];
  }

  lemma FreezeIsThis(g: Plan, s: State)
    requires s.freezing
    ensures Enabled(g, s, Freeze)
    ensures Apply(g, s, Freeze) == s.(report := if s.report.None? && IsOver(s) then s.ending else s.report, freezing := false)
  {
  }

  lemma HonorIsThis(g: Plan, s: State)
    requires s.pc.Settling?
    ensures Enabled(g, s, Honor)
    ensures Apply(g, s, Honor) ==
      if s.barrier == PauseBarrier then s.(pc := Parking(false))
      else if s.barrier == InterruptBarrier then FinishRun(s, INTERRUPTED).(pc := Top)
      else s.(pc := if IsOver(s) then Top else Routing(s.pc.node))
    ensures IsOver(s) ==> FinishRun(s, INTERRUPTED).(pc := Top) == s.(pc := Top)
  {
  }

  /** Without a pause or an interrupt the run is running or over, or a late pause has stopped it. */
  lemma RunningOrNot(g: Plan, s: State)
    requires Sound(g, s)
    ensures s.barrier == NoBarrier && s.status != Paused ==> s.status == Running || IsOver(s)
    ensures s.barrier == NoBarrier || s.barrier == PauseBarrier || s.barrier == InterruptBarrier
    ensures s.barrier != NoBarrier ==> s.status != Running
  {
    hide SoundWalk, SoundPc, SoundBranches, SoundThreads, ValidPlan;
  }

  lemma BusyIsNotPaused(g: Plan, s: State)
    requires Sound(g, s)
    ensures IsAtWork(s.pc) ==> s.status != Paused
    ensures s.barrier == NoBarrier && s.status != Paused ==> s.status == Running || IsOver(s)
    ensures s.barrier == InterruptBarrier && s.status != Paused ==> s.status == Quiescing
    ensures s.status == Quiescing ==> s.barrier == InterruptBarrier
    ensures s.barrier != CancelBarrier
    ensures IsOver(s) ==> s.barrier == NoBarrier
  {
    hide SoundWalk, SoundPc, SoundBranches, SoundThreads, ValidPlan;
  }

  // ---- what creation writes ----

  function FirstRow(n: Node, order: nat): Branch
    requires order < |BranchesOf(n.kind)|
  {
    var p := BranchesOf(n.kind)[order].subgraph;
    Branch(p, order, Pending, Fresh(p), None)
  }

  function RowsOf(n: Node, k: nat, rows: map<Slot, Branch>): map<Slot, Branch>
    requires k <= |BranchesOf(n.kind)|
  {
    if k == 0 then rows
    else RowsOf(n, k - 1, rows)[Slot(n.id, BranchesOf(n.kind)[k - 1].id) := FirstRow(n, k - 1)]
  }

  function AllRows(nodes: seq<Node>, k: nat): map<Slot, Branch>
    requires k <= |nodes|
  {
    if k == 0 then map[]
    else RowsOf(nodes[k - 1], |BranchesOf(nodes[k - 1].kind)|, AllRows(nodes, k - 1))
  }

  ghost predicate IsRowOf(n: Node, order: nat, slot: Slot) {
    order < |BranchesOf(n.kind)| && slot == Slot(n.id, BranchesOf(n.kind)[order].id)
  }

  lemma {:induction false} RowsOfAre(n: Node, k: nat, rows: map<Slot, Branch>, slot: Slot)
    requires k <= |BranchesOf(n.kind)|
    ensures slot in RowsOf(n, k, rows) <==> slot in rows || exists j: nat :: j < k && IsRowOf(n, j, slot)
    ensures slot in RowsOf(n, k, rows) ==>
      (slot in rows && RowsOf(n, k, rows)[slot] == rows[slot])
      || exists j: nat :: j < k && IsRowOf(n, j, slot) && RowsOf(n, k, rows)[slot] == FirstRow(n, j)
  {
    hide FirstRow;
    if k > 0 {
      RowsOfAre(n, k - 1, rows, slot);
      if slot == Slot(n.id, BranchesOf(n.kind)[k - 1].id) { assert IsRowOf(n, k - 1, slot); }
    }
  }

  lemma {:induction false} AllRowsAre(nodes: seq<Node>, k: nat, slot: Slot)
    requires k <= |nodes|
    ensures slot in AllRows(nodes, k) <==> exists i: nat, j: nat :: i < k && IsRowOf(nodes[i], j, slot)
    ensures slot in AllRows(nodes, k) ==>
      exists i: nat, j: nat :: i < k && IsRowOf(nodes[i], j, slot) && AllRows(nodes, k)[slot] == FirstRow(nodes[i], j)
  {
    hide FirstRow;
    if k > 0 {
      AllRowsAre(nodes, k - 1, slot);
      RowsOfAre(nodes[k - 1], |BranchesOf(nodes[k - 1].kind)|, AllRows(nodes, k - 1), slot);
      if slot in AllRows(nodes, k) {
        if slot in AllRows(nodes, k - 1) && AllRows(nodes, k)[slot] == AllRows(nodes, k - 1)[slot] {
          var i: nat, j: nat :| i < k - 1 && IsRowOf(nodes[i], j, slot) && AllRows(nodes, k - 1)[slot] == FirstRow(nodes[i], j);
          assert i < k;
        }
      }
    }
  }

  /** The rows that creation inserts are the initial state's. */
  lemma InsertedRowsAreInit(g: Plan)
    requires ValidGraph(g)
    ensures AllRows(g.nodes, |g.nodes|) == InitBranches(g)
  {
    hide AllRows, InitBranches, ValidGraph;
    forall slot
      ensures slot in InitBranches(g) <==> slot in AllRows(g.nodes, |g.nodes|)
      ensures slot in AllRows(g.nodes, |g.nodes|) ==> InitBranches(g)[slot] == AllRows(g.nodes, |g.nodes|)[slot]
    {
      RowIsInserted(g, slot);
    }
  }

  lemma RowIsInserted(g: Plan, slot: Slot)
    requires ValidGraph(g)
    ensures slot in InitBranches(g) <==> slot in AllRows(g.nodes, |g.nodes|)
    ensures slot in AllRows(g.nodes, |g.nodes|) ==> InitBranches(g)[slot] == AllRows(g.nodes, |g.nodes|)[slot]
  {
    hide Fresh, AllRows, FirstRow, InitBranches, ValidGraph;
    AllRowsAre(g.nodes, |g.nodes|, slot);
    SlotsAreRows(g, slot);
    InitBranchesAre(g);
    if slot in AllRows(g.nodes, |g.nodes|) {
      var i: nat, j: nat :| i < |g.nodes| && IsRowOf(g.nodes[i], j, slot)
                            && AllRows(g.nodes, |g.nodes|)[slot] == FirstRow(g.nodes[i], j);
      RowIsInit(g, g.nodes[i], j, slot);
    }
  }

  lemma InitBranchesAre(g: Plan)
    requires ValidGraph(g)
    ensures InitBranches(g).Keys == Slots(g)
  {
    hide Fresh, Slots, ValidGraph, PlanOf, OrderOf;
  }

  lemma FreshIs(p: Plan)
    ensures Fresh(p).counts == map[] && Fresh(p).at == Some(p.entry)
  {
  }

  lemma SlotsAreRows(g: Plan, slot: Slot)
    ensures slot in Slots(g) <==> exists i: nat, j: nat :: i < |g.nodes| && IsRowOf(g.nodes[i], j, slot)
  {
    if slot in Slots(g) {
      var n, b :| n in g.nodes && b in BranchesOf(n.kind) && Slot(n.id, b.id) == slot;
      var i: nat :| i < |g.nodes| && g.nodes[i] == n;
      var j: nat :| j < |BranchesOf(n.kind)| && BranchesOf(n.kind)[j] == b;
      assert IsRowOf(g.nodes[i], j, slot);
    }
    if i: nat, j: nat :| i < |g.nodes| && IsRowOf(g.nodes[i], j, slot) {
      assert BranchesOf(g.nodes[i].kind)[j] in BranchesOf(g.nodes[i].kind);
    }
  }

  lemma RowIsInit(g: Plan, n: Node, order: nat, slot: Slot)
    requires ValidGraph(g) && n in g.nodes && IsRowOf(n, order, slot)
    ensures slot in InitBranches(g) && InitBranches(g)[slot] == FirstRow(n, order)
  {
    hide Fresh;
    NodeIsUnique(g, n);
    var b := BranchesOf(n.kind)[order];
    assert b in BranchesOf(n.kind) && slot in Slots(g);
    assert ValidNode(g, n);
    var i := OrderOf(g, slot);
    assert IsBranchAt(g, slot, i);
    assert i == order;
  }
}
