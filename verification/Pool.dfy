/**
 The branch coordinator (runtime/parallel.py) as an object over the engine's rows. A pool of
 branch threads is stepped one transaction at a time, in an arbitrary order, with controls in
 between; every transaction is a label of the machine.
 */
module Pool {
  import opened Options
  import opened Graphs
  import opened Results
  import opened Walks
  import opened Reports
  import opened Machine
  import opened Tokens
  import opened Effects
  import opened Progress
  import opened Runtime
  import Ordering

  /** How far a thread still is from its end. */
  function Distance(t: Thread): nat {
    match t
    case Entering => 7
    case Starting => 6
    case Querying => 6
    case Invoking => 5
    case Answered(_) => 4
    case Leaving(_) => 3
    case Blocking(_) => 2
    case Out(_) => 0
  }

  ghost function Distances(ts: map<Slot, Thread>): map<Slot, nat> { map slot | slot in ts :: Distance(ts[slot]) }

  lemma CloserIsLess(ts: map<Slot, Thread>, slot: Slot, t: Thread)
    requires slot in ts && Distance(t) < Distance(ts[slot])
    ensures Total(Distances(ts[slot := t])) < Total(Distances(ts))
  {
    assert Distances(ts[slot := t]) == Distances(ts)[slot := Distance(t)];
    TotalUpdates(Distances(ts), slot, Distance(t));
  }

  // ---- the query that admits branches ----

  /** ORDER BY active first, branch_order LIMIT. */
  method SelectRows(ghost g: Plan, bs: map<Slot, Branch>, n: Id, limit: nat) returns (pool: set<Slot>)
    requires IsOrdered(g, bs)
    ensures IsAdmission(bs, n, limit, pool)
  {
    hide Precedes, IsOrdered;
    pool := {};
    var rest := set slot | slot in bs && slot.container == n && IsUnsettled(bs[slot]);
    ghost var waiting := rest;
    while |pool| < limit && rest != {}
      invariant waiting == UnsettledOf(bs, n)
      invariant pool + rest == waiting && pool !! rest && |pool| <= limit
      invariant forall a, b | a in pool && b in rest :: Precedes(bs[a], bs[b])
      decreases |rest|
    {
      var m := FirstOf(g, bs, n, rest);
      assert |pool + {m}| == |pool| + 1;
      pool, rest := pool + {m}, rest - {m};
    }
    assert |waiting| == |pool| + |rest|;
  }

  method FirstOf(ghost g: Plan, bs: map<Slot, Branch>, n: Id, rest: set<Slot>) returns (m: Slot)
    requires IsOrdered(g, bs) && rest != {}
    requires forall slot | slot in rest :: slot in bs && slot.container == n
    ensures m in rest
    ensures forall slot | slot in rest && slot != m :: Precedes(bs[m], bs[slot])
  {
    hide Precedes, IsOrdered;
    m :| m in rest;
    var others := rest - {m};
    ghost var seen := {m};
    while others != {}
      invariant m in seen && seen + others == rest && seen !! others
      invariant forall slot | slot in seen && slot != m :: Precedes(bs[m], bs[slot])
      decreases |others|
    {
      var slot :| slot in others;
      OrdersDiffer(g, bs, m, slot);
      if Precedes(bs[slot], bs[m]) {
        forall other | other in seen && other != m ensures Precedes(bs[slot], bs[other]) {
          PrecedesIsTransitive(bs[slot], bs[m], bs[other]);
        }
        m := slot;
      }
      seen, others := seen + {slot}, others - {slot};
    }
    assert seen == rest;
  }

  lemma PrecedesIsTransitive(a: Branch, b: Branch, c: Branch)
    requires Precedes(a, b) && Precedes(b, c)
    ensures Precedes(a, c)
  {
  }

  // ---- the query that lists results ----

  /** The settled branches' results, ORDER BY branch_id. */
  method CollectResults(bs: map<Slot, Branch>, n: Id, rows: set<Slot>) returns (results: seq<BranchResult>)
    requires rows == (set slot | slot in bs && slot.container == n) && rows != {}
    requires forall slot | slot in rows :: bs[slot].result.Some?
    ensures results == ResultsOf(bs, n) && results != [] && BranchIdsOf(bs, n) != {}
  {
    hide ResultsOf, BranchIdsOf;
    var ids := set slot | slot in rows :: slot.branch;
    RowsHaveIds(bs, n, rows);
    var sorted := Ordering.Sort(ids);
    ResultsInOrder(bs, n);
    results := [];
    for i := 0 to |sorted|
      invariant |results| == i
      invariant forall j | 0 <= j < i :: results[j] == ResultsOf(bs, n)[j]
    {
      results := results + [bs[Slot(n, sorted[i])].result.value];
    }
  }

  lemma RowsHaveIds(bs: map<Slot, Branch>, n: Id, rows: set<Slot>)
    requires rows == (set slot | slot in bs && slot.container == n) && rows != {}
    ensures (set slot | slot in rows :: slot.branch) == BranchIdsOf(bs, n) && BranchIdsOf(bs, n) != {}
  {
    var ids := set slot | slot in rows :: slot.branch;
    forall id ensures id in ids <==> id in BranchIdsOf(bs, n) {
      if id in BranchIdsOf(bs, n) { assert Slot(n, id) in rows; }
    }
    var slot :| slot in rows;
    assert slot.branch in ids;
  }

  lemma ResultsInOrder(bs: map<Slot, Branch>, n: Id)
    requires forall slot | slot in bs && slot.container == n :: bs[slot].result.Some?
    ensures var ids, rs := Ordering.Ascending(BranchIdsOf(bs, n)), ResultsOf(bs, n);
      |rs| == |ids| && forall i | 0 <= i < |ids| :: Slot(n, ids[i]) in bs && rs[i] == bs[Slot(n, ids[i])].result.value
  {
    var ids := Ordering.Ascending(BranchIdsOf(bs, n));
    forall i | 0 <= i < |ids| ensures Slot(n, ids[i]) in bs { assert ids[i] in BranchIdsOf(bs, n); }
  }

  // ---- the coordinator ----

  class ParallelCoordinator {
    const runtime: GraphRuntime

    constructor (runtime: GraphRuntime)
      ensures this.runtime == runtime
    {
      this.runtime := runtime;
    }

    /** Some thread of the pool stands at `slot`, which is a branch row with a current node. */
    ghost predicate HasNode(slot: Slot)
      reads runtime
    {
      slot in runtime.threads && slot in runtime.branches && AtRow(runtime.branches[slot].walk)
    }

    /** The move of one thread: one label, and only its own thread comes closer to its end. */
    twostate predicate Moved(slot: Slot, l: Label)
      reads runtime
    {
      && runtime.Valid() && runtime.log == old(runtime.log) + [l]
      && runtime.state.pc == old(runtime.state).pc && runtime.nodes == old(runtime.nodes)
      && slot in old(runtime.threads) && slot in runtime.threads
      && runtime.threads == old(runtime.threads)[slot := runtime.threads[slot]]
      && Distance(runtime.threads[slot]) < Distance(old(runtime.threads)[slot])
    }

    /** A transaction commits: one branch row, its thread, and the shared counters. */
    method Commit(slot: Slot, b: Branch, t: Thread, calls: nat, repairs: nat, ghost l: Label)
      requires runtime.Valid() && Enabled(runtime.graph, runtime.state, l) && HasThread(runtime.state, slot)
      requires Writes(runtime.state, Apply(runtime.graph, runtime.state, l), slot, b, t, calls, repairs)
      requires Distance(t) < Distance(runtime.threads[slot])
      modifies runtime
      ensures Moved(slot, l)
      ensures runtime.branches == old(runtime.branches)[slot := b] && runtime.threads[slot] == t
    {
      hide runtime.Leads, Enabled, Apply;
      runtime.branches := runtime.branches[slot := b];
      runtime.threads := runtime.threads[slot := t];
      runtime.calls, runtime.repairs := calls, repairs;
      runtime.Record(l);
    }

    // ---- one thread ----

    /** `_branch_step_uninstrumented` up to its first transaction or call. */
    method LookAt(slot: Slot)
      requires runtime.Valid() && Enabled(runtime.graph, runtime.state, Look(slot))
      modifies runtime
      ensures Moved(slot, Look(slot))
    {
      hide runtime.Leads, Apply;
      var b := runtime.branches[slot];
      var t: Thread := Out(false);
      if runtime.barrier == NoBarrier && b.walk.at.Some? {
        var row := b.walk.rows[b.walk.at.value];
        if row.state.InFlight? { t := if row.trigger.Checkpointed? then Querying else Blocking(true); }
        else if row.result.Some? && !row.routed { t := Leaving(row.result.value); }
        else { t := Starting; }
      }
      LookIs(runtime.graph, runtime.state, slot);
      Commit(slot, b, t, runtime.calls, runtime.repairs, Look(slot));
    }

    /** `_start_attempt`; `limit` is the clock's or the cost's answer for the node's own budget. */
    method StartAttempt(slot: Slot, limit: bool)
      requires runtime.Valid() && Enabled(runtime.graph, runtime.state, StartBranch(slot, limit))
      modifies runtime
      ensures Moved(slot, StartBranch(slot, limit))
    {
      hide runtime.Leads, Apply, BeginBranch;
      var b, t, calls := runtime.branches[slot], Invoking, runtime.calls;
      var row := b.walk.rows[b.walk.at.value];
      if runtime.status != Running || runtime.barrier != NoBarrier { t := Out(true); }
      else if calls >= runtime.budget.maxExecutorCalls { t := Blocking(false); }
      else if !row.state.Ready? { t := Out(true); }
      else if limit || !WithinNodeCalls(row) { t := Blocking(false); }
      else {
        b := InsertAttempt(b);
        calls := calls + 1;
      }
      StartIs(runtime.graph, runtime.state, slot, limit);
      Commit(slot, b, t, calls, runtime.repairs, StartBranch(slot, limit));
    }

    /** The UPDATEs of a branch and of its current node when an attempt begins. */
    method InsertAttempt(b: Branch) returns (begun: Branch)
      requires AtRow(b.walk)
      ensures begun == BeginBranch(b)
    {
      var n := b.walk.at.value;
      var row := b.walk.rows[n];
      var number := row.attempts + 1;
      var trigger := if IsExternal(row.node.kind) then Triggering else row.trigger;
      var row' := Row(row.node, InFlight, number, None, false, row.repairs, trigger, 0);
      begun := Branch(b.plan, b.order, Active, Walk(b.walk.rows[n := row'], b.walk.counts, b.walk.at), b.result);
    }

    /** `_invoke` of the branch's node. */
    method Invoke(slot: Slot, world: World)
      requires runtime.Valid() && HasNode(slot) && runtime.threads[slot].Invoking? && IsSerialNode(slot)
      modifies runtime, world
      ensures Moved(slot, AnswerBranch(slot, old(world.Reply(KindAt(slot)))))
    {
      hide runtime.Leads, Apply, Fits;
      var b := runtime.branches[slot];
      var r := world.Ask(b.walk.rows[b.walk.at.value].node.kind);
      BranchAnswerIs(runtime.graph, runtime.state, slot, r);
      Commit(slot, b, Answered(r), runtime.calls, runtime.repairs, AnswerBranch(slot, r));
    }

    /** `_continue_external`: poll the checkpointed handle; an exception of the poll ends the thread. */
    method Query(slot: Slot, world: World) returns (ghost l: Label)
      requires runtime.Valid() && HasNode(slot) && runtime.threads[slot].Querying? && IsSerialNode(slot)
      modifies runtime, world
      ensures Moved(slot, l) && l == Polls(slot, old(world.Report(KindAt(slot))))
      ensures l.FailBranch? ==> runtime.branches == old(runtime.branches) && runtime.threads[slot] == Out(true)
    {
      hide runtime.Leads, Apply, Fits;
      var b := runtime.branches[slot];
      var n := b.walk.at.value;
      var row := b.walk.rows[n];
      var r := world.Query(row.node.kind);
      l := Polls(slot, r);
      if r.None? {
        PollFails(runtime.graph, runtime.state, slot);
        SameRow(runtime.branches, slot);
        Commit(slot, b, Out(true), runtime.calls, runtime.repairs, l);
        return;
      }
      PollIs(runtime.graph, runtime.state, slot, r.value);
      b := b.(walk := b.walk.(rows := b.walk.rows[n := row.(polls := row.polls + 1)]));
      Commit(slot, b, Answered(r.value), runtime.calls, runtime.repairs, l);
    }

    /** `_persist_result`. */
    method PersistResult(slot: Slot)
      requires runtime.Valid() && Enabled(runtime.graph, runtime.state, PersistBranch(slot))
      modifies runtime
      ensures Moved(slot, PersistBranch(slot))
    {
      hide runtime.Leads, Apply, Checkpoint, Handled;
      var r, b, t := runtime.threads[slot].result, runtime.branches[slot], Out(false);
      var n, rows := b.walk.at.value, b.walk.rows;
      CheckpointIsUpdate(rows, n, if r.Awaiting? then r.externalHandle else "");
      PersistIs(runtime.graph, runtime.state, slot, r);
      if r.Awaiting? {
        if r.externalHandle == "" { t := Out(true); }
        else { rows := UpdateHandle(rows, n, r.externalHandle); }
      } else if !runtime.status.Terminal? {
        rows := rows[n := rows[n].(state := Settled(OutcomeOf(r)), result := Some(r), routed := false)];
        t := Leaving(r);
      }
      b := b.(walk := Walk(rows, b.walk.counts, b.walk.at));
      Commit(slot, b, t, runtime.calls, runtime.repairs, PersistBranch(slot));
    }

    /** The UPDATE of the handle row, if there is one. */
    method UpdateHandle(rows: map<Id, Row>, n: Id, handle: string) returns (updated: map<Id, Row>)
      requires n in rows
      ensures updated == Handled(rows, n, handle)
    {
      updated := rows;
      if rows[n].trigger != Untriggered { updated := updated[n := updated[n].(trigger := Checkpointed(handle))]; }
    }

    /** `_route`, and `_finish_branch` when no edge is open. */
    method RouteResult(slot: Slot)
      requires runtime.Valid() && Enabled(runtime.graph, runtime.state, RouteBranch(slot))
      modifies runtime
      ensures Moved(slot, RouteBranch(slot))
    {
      hide runtime.Leads, Apply, Close, Advance, FinishedBranchResult, IsRepair, IsSelection, EdgesHaveRows;
      var r, b, t, repairs := runtime.threads[slot].result, runtime.branches[slot], Out(false), runtime.repairs;
      var n := b.walk.at.value;
      var selected := SelectEdge(b.plan.edges, b.walk.counts, n, r, b.walk.rows[n].attempts);
      RouteIs(runtime.graph, runtime.state, slot, r);
      if selected.None? {
        b := Close(b, FinishedBranchResult(slot, b.walk, r));
      } else if runtime.barrier == NoBarrier {
        var repair := IsRepair(selected.value, r);
        if repair && repairs >= runtime.budget.maxRepairIterations {
          t := Blocking(false);
        } else {
          repairs := repairs + if repair then 1 else 0;
          var moved := UpdateRoute(b.walk, selected.value, repair);
          b := b.(walk := moved);
        }
      }
      Commit(slot, b, t, runtime.calls, repairs, RouteBranch(slot));
    }

    /** The UPDATEs of a traversal within a branch. */
    method UpdateRoute(w: Walk, edge: Edge, repair: bool) returns (moved: Walk)
      requires edge.from in w.rows && edge.to in w.rows
      ensures moved == Advance(w, edge, repair)
    {
      var rows := w.rows;
      if repair { rows := rows[edge.from := rows[edge.from].(repairs := rows[edge.from].repairs + 1)]; }
      var count := if (edge.from, edge.to) in w.counts then w.counts[(edge.from, edge.to)] else 0;
      rows := rows[edge.from := rows[edge.from].(routed := true)];
      rows := rows[edge.to := rows[edge.to].(state := Ready, result := None, routed := false)];
      moved := Walk(rows, w.counts[(edge.from, edge.to) := count + 1], Some(edge.to));
    }

    /** `_block_branch`. */
    method Block(slot: Slot)
      requires runtime.Valid() && Enabled(runtime.graph, runtime.state, BlockBranch(slot))
      modifies runtime
      ensures Moved(slot, BlockBranch(slot))
    {
      hide runtime.Leads, Apply, Close, BlockedResult;
      var b := runtime.branches[slot];
      BlockIs(runtime.graph, runtime.state, slot);
      b := Close(b, BlockedResult(slot, runtime.threads[slot].uncertain));
      Commit(slot, b, Out(false), runtime.calls, runtime.repairs, BlockBranch(slot));
    }

    /** The kind of the branch's current node. */
    ghost function KindAt(slot: Slot): Kind
      requires HasNode(slot)
      reads runtime
    {
      Current(runtime.branches[slot].walk).node.kind
    }

    /** The branch's current node is not a container. */
    ghost predicate IsSerialNode(slot: Slot)
      requires HasNode(slot)
      reads runtime
    {
      !IsContainer(KindAt(slot)) && !KindAt(slot).Join?
    }

    /** Whichever transaction or call the thread at `slot` is about to make. */
    method Move(slot: Slot, world: World) returns (ghost l: Label)
      requires runtime.Valid() && slot in runtime.threads && !runtime.threads[slot].Out?
      modifies runtime, world
      ensures Moved(slot, l) && IsBranchMove(l) && l.slot == slot
      ensures l.StartBranch? ==> l.limit == old(world.IsLimited())
      ensures old(runtime.threads)[slot].Invoking? ==>
        old(HasNode(slot)) && l == AnswerBranch(slot, old(world.Reply(KindAt(slot))))
      ensures old(runtime.threads)[slot].Querying? ==>
        old(HasNode(slot)) && l == Polls(slot, old(world.Report(KindAt(slot))))
    {
      hide runtime.Leads, Enabled, Sound, Fits, Distance, Apply;
      runtime.ValidIsReachable();
      ThreadIsEnabled(runtime.graph, runtime.state, slot);
      match runtime.threads[slot] {
        case Entering =>
          LookAt(slot);
          l := Look(slot);
        case Starting =>
          var limit := world.LimitHit();
          StartAttempt(slot, limit);
          l := StartBranch(slot, limit);
        case Invoking =>
          Invoke(slot, world);
          l := AnswerBranch(slot, old(world.Reply(KindAt(slot))));
        case Querying =>
          l := Query(slot, world);
        case Answered(_) =>
          PersistResult(slot);
          l := PersistBranch(slot);
        case Leaving(_) =>
          RouteResult(slot);
          l := RouteBranch(slot);
        case Blocking(_) =>
          Block(slot);
          l := BlockBranch(slot);
      }
    }

    // ---- the pool ----

    /** `aggregate`, and `_subgraph_result` for a nested container. */
    method Aggregate(n: Id, kind: Kind) returns (answer: StepAnswer)
      ensures answer == Machine.Aggregate(kind, runtime.branches, n)
    {
      hide Combine, SubgraphResult, ValidResult, ResultsOf;
      var rows := set slot | slot in runtime.branches && slot.container == n;
      if rows == {} || exists slot | slot in rows ::
           IsUnsettled(runtime.branches[slot]) || runtime.branches[slot].result.None? {
        NotYet(kind, runtime.branches, n, rows);
        return Nothing;
      }
      assert UnsettledOf(runtime.branches, n) == {};
      var results := CollectResults(runtime.branches, n, rows);
      if kind.Parallel? { return Yields(Joined(Combine(n, results))); }
      var answered := SubgraphResult(results[0]);
      ExecutorAnswerIsValid(results[0]);
      return if IsProtocolAnswer(Agent, answered) then Yields(answered) else Raises;
    }

    /**
     `step`: admit branches, run their threads to their ends in any order and with controls in
     between, then surface an exception, honor a barrier, or aggregate.
     */
    method Step(n: Id, world: World) returns (answer: StepAnswer)
      requires runtime.Valid() && n in runtime.nodes && IsContainer(runtime.nodes[n].node.kind)
      requires runtime.state.pc == Calling(n) || (CanSchedule(runtime.state, n) && runtime.nodes[n].state.InFlight?)
      modifies runtime, world
      ensures runtime.Valid() && OnlyLive(old(runtime.log), runtime.log) && n in runtime.nodes
      ensures if After(old(runtime.log), runtime.log, Skip) then answer.Nothing?
              else Opens(old(runtime.log), runtime.log, n) && ClosesPool(runtime.log[|runtime.log| - 1])
      ensures match answer
              case Nothing => runtime.state.pc == Top
              case Yields(r) => runtime.state.pc == Holding(n, r)
              case Raises => runtime.state.pc == if old(runtime.state).pc.Calling? then Holding(n, BOUNDARY) else Idle
    {
      hide runtime.Leads, Enabled, Apply, OnlyLive, Machine.Aggregate, CanSchedule, Moved, After, Opens;
      ghost var first := runtime.state.pc.Calling?;
      var kind := runtime.nodes[n].node.kind;
      var entered := Enter(n, kind, world);
      if !entered { return Nothing; }
      ghost var submitted := runtime.log;
      Drive(n, world, first);
      LiveChains(old(runtime.log), submitted, runtime.log);
      ghost var driven := runtime.log;
      answer := Finish(n, kind, world, first);
      LiveChains(old(runtime.log), driven, runtime.log);
      OpensForGood(old(runtime.log), submitted, runtime.log, n);
    }

    /** The barrier is read; unless there is one, the pool is filled. */
    method Enter(n: Id, kind: Kind, world: World) returns (entered: bool)
      requires runtime.Valid() && n in runtime.nodes && kind == runtime.nodes[n].node.kind && IsContainer(kind)
      requires runtime.state.pc == Calling(n) || (CanSchedule(runtime.state, n) && runtime.nodes[n].state.InFlight?)
      modifies runtime, world`touches
      ensures runtime.Valid() && OnlyLive(old(runtime.log), runtime.log) && runtime.nodes == old(runtime.nodes)
      ensures if entered
              then runtime.state.pc == Pooling(n, old(runtime.state).pc.Calling?) && Opens(old(runtime.log), runtime.log, n)
              else runtime.state.pc == Top && After(old(runtime.log), runtime.log, Skip)
    {
      hide runtime.Leads, Enabled, Apply, OnlyLive, IsScheduled, IsAdmission, Moved, After, OnlyControls, Sound, AllSettled;
      runtime.Hook(world);
      ghost var l1 := runtime.log;
      ControlsAreLive(old(runtime.log), l1);
      runtime.ValidIsReachable();
      BusyIsNotPaused(runtime.graph, runtime.state);
      if runtime.barrier != NoBarrier {
        SkipIs(runtime.graph, runtime.state, n);
        AfterIs(old(runtime.log), l1, Skip);
        runtime.Record(Skip);
        LiveIs(l1, Skip);
        LiveChains(old(runtime.log), l1, runtime.log);
        return false;
      }
      Submit(n, kind);
      LiveChains(old(runtime.log), l1, runtime.log);
      OpensAfterControls(old(runtime.log), l1, runtime.log, n);
      return true;
    }

    method Submit(n: Id, kind: Kind)
      requires runtime.Valid() && n in runtime.nodes && kind == runtime.nodes[n].node.kind && IsContainer(kind)
      requires runtime.barrier == NoBarrier
      requires runtime.state.pc == Calling(n)
        || (IsPicked(runtime.state, n) && runtime.nodes[n].state.InFlight? && (IsGoing(runtime.state) || AllSettled(runtime.branches)))
      modifies runtime
      ensures runtime.Valid() && runtime.state.pc == Pooling(n, old(runtime.state).pc.Calling?)
      ensures runtime.nodes == old(runtime.nodes) && OnlyLive(old(runtime.log), runtime.log)
      ensures exists pool :: runtime.log == old(runtime.log) + [OpenPool(n, pool)]
    {
      hide runtime.Leads, Enabled, Apply, OnlyLive, IsScheduled, IsAdmission;
      ValidIsOrdered(runtime);
      var pool := SelectRows(runtime.graph, runtime.branches, n, Limit(kind));
      OpenIs(runtime.graph, runtime.state, n, pool);
      runtime.threads := map slot | slot in pool :: Entering;
      LiveIs(runtime.log, OpenPool(n, pool));
      runtime.Record(OpenPool(n, pool));
    }

    /** The executor of threads, until every future is done. */
    method Drive(n: Id, world: World, ghost first: bool)
      requires runtime.Valid() && n in runtime.nodes && runtime.state.pc == Pooling(n, first)
      modifies runtime, world
      ensures runtime.Valid() && runtime.state.pc == Pooling(n, first) && runtime.nodes == old(runtime.nodes)
      ensures forall slot | slot in runtime.threads :: runtime.threads[slot].Out?
      ensures OnlyLive(old(runtime.log), runtime.log) && old(runtime.log) <= runtime.log
    {
      hide runtime.Leads, runtime.Mirrors, Enabled, OnlyLive, Distances, Total, Distance;
      LiveStarts(runtime.log);
      while exists slot | slot in runtime.threads :: !runtime.threads[slot].Out?
        invariant runtime.Valid() && runtime.state.pc == Pooling(n, first) && runtime.nodes == old(runtime.nodes)
        invariant OnlyLive(old(runtime.log), runtime.log) && old(runtime.log) <= runtime.log
        decreases Total(Distances(runtime.threads))
      {
        ghost var l0, ts := runtime.log, runtime.threads;
        runtime.Hook(world);
        ControlsAreLive(l0, runtime.log);
        LiveChains(old(runtime.log), l0, runtime.log);
        ghost var l1 := runtime.log;
        var slot :| slot in runtime.threads && !runtime.threads[slot].Out?;
        ghost var l := Move(slot, world);
        LiveIs(l1, l);
        LiveChains(old(runtime.log), l1, runtime.log);
        CloserIsLess(ts, slot, runtime.threads[slot]);
      }
    }

    /** After the pool: an exception surfaces, a barrier cancels, or the branches are aggregated. */
    method Finish(n: Id, kind: Kind, world: World, ghost first: bool) returns (answer: StepAnswer)
      requires runtime.Valid() && n in runtime.nodes && kind == runtime.nodes[n].node.kind
      requires runtime.state.pc == Pooling(n, first) && forall slot | slot in runtime.threads :: runtime.threads[slot].Out?
      modifies runtime, world`touches
      ensures runtime.Valid() && runtime.nodes == old(runtime.nodes) && OnlyLive(old(runtime.log), runtime.log)
      ensures old(runtime.log) < runtime.log && ClosesPool(runtime.log[|runtime.log| - 1])
      ensures match answer
              case Nothing => runtime.state.pc == Top
              case Yields(r) => runtime.state.pc == Holding(n, r)
              case Raises => runtime.state.pc == if first then Holding(n, BOUNDARY) else Idle
    {
      hide runtime.Leads, Enabled, Apply, Machine.Aggregate, CancelBranches, OnlyLive;
      CloseIs(runtime.graph, runtime.state, n, first, ClosePool);
      LiveIs(runtime.log, ClosePool);
      if exists slot | slot in runtime.threads :: runtime.threads[slot] == Out(true) {
        runtime.threads := map[];
        runtime.Record(ClosePool);
        return Raises;
      }
      answer := Conclude(n, kind, world, first);
    }

    /** The barrier is read, and what it calls for is done in transactions of their own. */
    method Conclude(n: Id, kind: Kind, world: World, ghost first: bool) returns (answer: StepAnswer)
      requires runtime.Valid() && n in runtime.nodes && kind == runtime.nodes[n].node.kind
      requires runtime.state.pc == Pooling(n, first) && forall slot | slot in runtime.threads :: runtime.threads[slot] == Out(false)
      modifies runtime, world`touches
      ensures runtime.Valid() && runtime.nodes == old(runtime.nodes) && OnlyLive(old(runtime.log), runtime.log)
      ensures old(runtime.log) < runtime.log && ClosesPool(runtime.log[|runtime.log| - 1])
      ensures match answer
              case Nothing => runtime.state.pc == Top
              case Yields(r) => runtime.state.pc == Holding(n, r)
              case Raises => runtime.state.pc == if first then Holding(n, BOUNDARY) else Idle
    {
      hide runtime.Leads, Enabled, Apply, Machine.Aggregate, CancelBranches, OnlyLive, Sound;
      var stopped := runtime.barrier == InterruptBarrier || runtime.barrier == CancelBarrier;
      runtime.ValidIsReachable();
      BusyIsNotPaused(runtime.graph, runtime.state);
      runtime.Hook(world);
      ghost var l1 := runtime.log;
      ControlsAreLive(old(runtime.log), l1);
      runtime.ValidIsReachable();
      BusyIsNotPaused(runtime.graph, runtime.state);
      ghost var l := if runtime.barrier == InterruptBarrier || runtime.status.Terminal? then LateClose(stopped) else ClosePool;
      answer := Nothing;
      if stopped { LeaveStopped(n, first, l); } else { answer := LeaveAggregated(n, kind, first, l); }
      LiveIs(l1, l);
      LiveChains(old(runtime.log), l1, runtime.log);
    }

    /** A stop was read: the pool is left with the branches cancelled. */
    method LeaveStopped(n: Id, ghost first: bool, ghost l: Label)
      requires runtime.Valid() && n in runtime.nodes && runtime.state.pc == Pooling(n, first)
      requires forall slot | slot in runtime.threads :: runtime.threads[slot] == Out(false)
      requires ClosesPool(l) && IsStopRead(runtime.state, l)
      requires l.LateClose? ==> runtime.barrier == InterruptBarrier || runtime.status.Terminal?
      modifies runtime
      ensures runtime.Valid() && runtime.nodes == old(runtime.nodes) && runtime.log == old(runtime.log) + [l]
      ensures runtime.state.pc == Top
    {
      hide runtime.Leads, Enabled, Apply, Machine.Aggregate, CancelBranches, IsStopRead;
      CloseIs(runtime.graph, runtime.state, n, first, l);
      runtime.threads := map[];
      runtime.CancelBranchRows(true);
      runtime.Record(l);
    }

    /** None was: the pool is left with what the branches add up to. */
    method LeaveAggregated(n: Id, kind: Kind, ghost first: bool, ghost l: Label) returns (answer: StepAnswer)
      requires runtime.Valid() && n in runtime.nodes && kind == runtime.nodes[n].node.kind && runtime.state.pc == Pooling(n, first)
      requires forall slot | slot in runtime.threads :: runtime.threads[slot] == Out(false)
      requires ClosesPool(l) && !IsStopRead(runtime.state, l)
      requires l.LateClose? ==> runtime.barrier == InterruptBarrier || runtime.status.Terminal?
      modifies runtime
      ensures runtime.Valid() && runtime.nodes == old(runtime.nodes) && runtime.log == old(runtime.log) + [l]
      ensures match answer
              case Nothing => runtime.state.pc == Top
              case Yields(r) => runtime.state.pc == Holding(n, r)
              case Raises => runtime.state.pc == if first then Holding(n, BOUNDARY) else Idle
    {
      hide runtime.Leads, Enabled, Apply, Machine.Aggregate, CancelBranches, IsStopRead;
      CloseIs(runtime.graph, runtime.state, n, first, l);
      answer := Aggregate(n, kind);
      runtime.threads := map[];
      runtime.Record(l);
    }
  }

  /** Controls at most, and then a pool opens for `n`. */
  ghost predicate Opens(before: seq<Label>, after: seq<Label>, n: Id) { exists pool :: After(before, after, OpenPool(n, pool)) }

  lemma OpensAfterControls(before: seq<Label>, mid: seq<Label>, started: seq<Label>, n: Id)
    requires OnlyControls(before, mid) && exists pool :: started == mid + [OpenPool(n, pool)]
    ensures Opens(before, started, n)
  {
    hide OnlyControls, After;
    var pool :| started == mid + [OpenPool(n, pool)];
    AfterIs(before, mid, OpenPool(n, pool));
  }

  lemma OpensForGood(before: seq<Label>, started: seq<Label>, after: seq<Label>, n: Id)
    requires Opens(before, started, n) && started <= after
    ensures Opens(before, after, n) && !After(before, after, Skip)
  {
    hide OnlyControls, After;
    var pool :| After(before, started, OpenPool(n, pool));
    AfterGrows(before, started, after, OpenPool(n, pool));
    if After(before, after, Skip) { AfterIsOne(before, after, OpenPool(n, pool), Skip); }
  }

  /** Only one label can be the first that is no control. */
  lemma AfterIsOne(before: seq<Label>, after: seq<Label>, a: Label, b: Label)
    requires After(before, after, a) && After(before, after, b) && !IsControl(a) && !IsControl(b)
    ensures a == b
  {
    var j: nat :| j < |after| && OnlyControls(before, after[..j]) && after[j] == a;
    var k: nat :| k < |after| && OnlyControls(before, after[..k]) && after[k] == b;
    if j < k { ControlsUpTo(before, after, j, k); }
    if k < j { ControlsUpTo(before, after, k, j); }
  }

  lemma ControlsUpTo(before: seq<Label>, after: seq<Label>, j: nat, k: nat)
    requires j < k <= |after| && OnlyControls(before, after[..j]) && OnlyControls(before, after[..k])
    ensures IsControl(after[j])
  {
    assert after[..k][|before|..][j - |before|] == after[j];
  }

  /** The label of a poll: it answers, or raises. */
  function Polls(slot: Slot, r: Option<Result>): Label {
    match r
    case None => FailBranch(slot)
    case Some(a) => PollBranch(slot, a)
  }

  /** The one branch row, the one thread and the counters that a transaction of a branch writes. */
  ghost predicate Writes(s: State, s': State, slot: Slot, b: Branch, t: Thread, calls: nat, repairs: nat) {
    && SameRun(s, s')
    && s'.branches == s.branches[slot := b] && s'.threads == s.threads[slot := t]
    && s'.calls == calls && s'.repairs == repairs
  }

  lemma SameRow(bs: map<Slot, Branch>, slot: Slot)
    requires slot in bs
    ensures bs[slot := bs[slot]] == bs
  {
  }

  lemma LookIs(g: Plan, s: State, slot: Slot)
    requires Enabled(g, s, Look(slot))
    ensures Writes(s, Apply(g, s, Look(slot)), slot, s.branches[slot], LookAtBranch(s, slot), s.calls, s.repairs)
  {
    hide LookAtBranch;
    SameRow(s.branches, slot);
  }

  lemma StartIs(g: Plan, s: State, slot: Slot, limit: bool)
    requires Enabled(g, s, StartBranch(slot, limit))
    ensures var c, s' := ChooseStart(s, slot, limit), Apply(g, s, StartBranch(slot, limit));
      match c
      case Turned(t) => Writes(s, s', slot, s.branches[slot], t, s.calls, s.repairs)
      case Begins => Writes(s, s', slot, BeginBranch(s.branches[slot]), Invoking, s.calls + 1, s.repairs)
  {
    hide ChooseStart, BeginBranch;
    BeginKeepsNode(s.branches[slot]);
    SameRow(s.branches, slot);
  }

  lemma BeginKeepsNode(b: Branch)
    requires AtRow(b.walk)
    ensures AtRow(BeginBranch(b).walk)
  {
  }

  lemma BranchAnswerIs(g: Plan, s: State, slot: Slot, r: Result)
    requires HasBranchNode(s, slot) && s.threads[slot].Invoking? && Fits(RowAt(s, slot).node.kind, r)
    ensures Enabled(g, s, AnswerBranch(slot, r))
    ensures Writes(s, Apply(g, s, AnswerBranch(slot, r)), slot, s.branches[slot], Answered(r), s.calls, s.repairs)
  {
    hide Fits, BranchAttempt;
    SameRow(s.branches, slot);
  }

  lemma PollIs(g: Plan, s: State, slot: Slot, r: Result)
    requires HasBranchNode(s, slot) && s.threads[slot].Querying? && Fits(RowAt(s, slot).node.kind, r)
    ensures Enabled(g, s, PollBranch(slot, r))
    ensures var b := s.branches[slot];
      Writes(s, Apply(g, s, PollBranch(slot, r)), slot, b.(walk := Polled(b.walk, b.walk.at.value)), Answered(r), s.calls, s.repairs)
  {
    hide Fits, Polled;
  }

  lemma PollFails(g: Plan, s: State, slot: Slot)
    requires HasThread(s, slot) && s.threads[slot].Querying?
    ensures Enabled(g, s, FailBranch(slot))
    ensures Writes(s, Apply(g, s, FailBranch(slot)), slot, s.branches[slot], Out(true), s.calls, s.repairs)
  {
    SameRow(s.branches, slot);
  }

  lemma PersistIs(g: Plan, s: State, slot: Slot, r: Result)
    requires Enabled(g, s, PersistBranch(slot)) && s.threads[slot] == Answered(r)
    ensures var b, s' := s.branches[slot], Apply(g, s, PersistBranch(slot));
      if r.Awaiting? && r.externalHandle == "" then Writes(s, s', slot, b, Out(true), s.calls, s.repairs)
      else if r.Awaiting? then
        Writes(s, s', slot, b.(walk := Checkpoint(b.walk, b.walk.at.value, r.externalHandle)), Out(false), s.calls, s.repairs)
      else if IsOver(s) then Writes(s, s', slot, b, Out(false), s.calls, s.repairs)
      else Writes(s, s', slot, b.(walk := Settle(b.walk, b.walk.at.value, r)), Leaving(r), s.calls, s.repairs)
  {
    hide Enabled, Apply;
    hide Checkpoint, Settle;
    BranchApplies(g, s, PersistBranch(slot));
    SameRow(s.branches, slot);
  }

  lemma RouteIs(g: Plan, s: State, slot: Slot, r: Result)
    requires Enabled(g, s, RouteBranch(slot)) && s.threads[slot] == Leaving(r)
    ensures var b, s' := s.branches[slot], Apply(g, s, RouteBranch(slot));
      match Select(b.plan.edges, b.walk.counts, b.walk.at.value, r, Current(b.walk).attempts)
      case None => Writes(s, s', slot, Close(b, FinishedBranchResult(slot, b.walk, r)), Out(false), s.calls, s.repairs)
      case Some(e) =>
        && e.from in b.walk.rows && e.to in b.walk.rows
        && if s.barrier != NoBarrier then Writes(s, s', slot, b, Out(false), s.calls, s.repairs)
           else if IsRepair(e, r) && s.repairs >= s.budget.maxRepairIterations then
             Writes(s, s', slot, b, Blocking(false), s.calls, s.repairs)
           else
             Writes(s, s', slot, b.(walk := Advance(b.walk, e, IsRepair(e, r))), Out(false), s.calls,
                    s.repairs + if IsRepair(e, r) then 1 else 0)
  {
    hide Enabled, Apply;
    hide Close, FinishedBranchResult, Advance, IsRepair;
    BranchApplies(g, s, RouteBranch(slot));
    SameRow(s.branches, slot);
  }

  lemma BlockIs(g: Plan, s: State, slot: Slot)
    requires Enabled(g, s, BlockBranch(slot))
    ensures Writes(s, Apply(g, s, BlockBranch(slot)), slot,
                   Close(s.branches[slot], BlockedResult(slot, s.threads[slot].uncertain)), Out(false), s.calls, s.repairs)
  {
    hide Close, BlockedResult;
  }

  lemma ThreadIsEnabled(g: Plan, s: State, slot: Slot)
    requires Sound(g, s) && slot in s.threads && !s.threads[slot].Out?
    ensures s.threads[slot].Entering? ==> Enabled(g, s, Look(slot))
    ensures s.threads[slot].Starting? ==> forall limit :: Enabled(g, s, StartBranch(slot, limit))
    ensures s.threads[slot].Invoking? || s.threads[slot].Querying? ==>
      HasBranchNode(s, slot) && !IsContainer(RowAt(s, slot).node.kind) && !RowAt(s, slot).node.kind.Join?
    ensures s.threads[slot].Answered? ==> Enabled(g, s, PersistBranch(slot))
    ensures s.threads[slot].Leaving? ==> Enabled(g, s, RouteBranch(slot))
    ensures s.threads[slot].Blocking? ==> Enabled(g, s, BlockBranch(slot))
  {
    hide Sound, SoundBranch, OneToken, EdgesHaveRows, SoundThread, LookAtBranch, ChooseBranchRoute, CommitBranchRoute;
    if s.threads[slot].Entering? { EnteringIsEnabled(g, s, slot); }
    else {
      ThreadHasNode(g, s, slot);
      if s.threads[slot].Leaving? { LeavingIsEnabled(g, s, slot); }
      if s.threads[slot].Invoking? || s.threads[slot].Querying? { BranchNodeIsSerial(g, s, slot); }
    }
  }

  lemma EnteringIsEnabled(g: Plan, s: State, slot: Slot)
    requires Sound(g, s) && slot in s.threads && s.threads[slot].Entering?
    ensures Enabled(g, s, Look(slot))
  {
    hide Sound, LookAtBranch;
    LookKeepsSound(g, s, slot);
  }

  lemma LeavingIsEnabled(g: Plan, s: State, slot: Slot)
    requires Sound(g, s) && slot in s.threads && s.threads[slot].Leaving?
    ensures Enabled(g, s, RouteBranch(slot))
  {
    hide Sound, EdgesHaveRows, ChooseBranchRoute, CommitBranchRoute;
    RouteBranchKeepsSound(g, s, slot);
  }

  lemma BranchNodeIsSerial(g: Plan, s: State, slot: Slot)
    requires Sound(g, s) && HasBranchNode(s, slot)
    ensures !IsContainer(RowAt(s, slot).node.kind) && !RowAt(s, slot).node.kind.Join?
  {
    hide SoundWalk, SoundPc, SoundThreads, ValidPlan, SoundBarrier, OneToken;
    assert SoundBranch(slot, s.branches[slot]);
  }

  lemma OrdersDiffer(g: Plan, bs: map<Slot, Branch>, a: Slot, b: Slot)
    requires IsOrdered(g, bs) && a in bs && b in bs && a != b && a.container == b.container
    ensures bs[a].order != bs[b].order
    ensures !Precedes(bs[b], bs[a]) ==> Precedes(bs[a], bs[b])
  {
    assert IsBranchAt(g, a, bs[a].order) && IsBranchAt(g, b, bs[b].order);
  }

  lemma ValidIsOrdered(runtime: GraphRuntime)
    requires runtime.Valid()
    ensures IsOrdered(runtime.graph, runtime.branches)
  {
    hide Sound, IsRun, Exec, ValidGraph, IsOrdered;
    InitIsSound(runtime.graph, runtime.creation);
    InitIsOrdered(runtime.graph, runtime.creation);
    OrderIsKept(runtime.graph, Init(runtime.graph, runtime.creation), runtime.log);
  }

  lemma NotYet(k: Kind, bs: map<Slot, Branch>, n: Id, rows: set<Slot>)
    requires rows == set slot | slot in bs && slot.container == n
    requires rows == {} || exists slot :: slot in rows && (IsUnsettled(bs[slot]) || bs[slot].result.None?)
    ensures Machine.Aggregate(k, bs, n) == Nothing
  {
    hide ResultsOf, Combine, SubgraphResult, ValidResult;
    if rows == {} {
      forall slot | slot in bs ensures slot.container != n { assert slot !in rows; }
    } else if slot :| slot in rows && IsUnsettled(bs[slot]) {
      assert slot in UnsettledOf(bs, n);
    }
  }

  lemma ExecutorAnswerIsValid(b: BranchResult)
    ensures ValidResult(SubgraphResult(b)) <==> IsProtocolAnswer(Agent, SubgraphResult(b))
  {
  }

  lemma SkipIs(g: Plan, s: State, n: Id)
    requires n in s.top.rows && IsContainer(s.top.rows[n].node.kind) && s.barrier != NoBarrier
    requires s.pc == Calling(n) || s.pc == Top
    ensures Enabled(g, s, Skip) && Apply(g, s, Skip) == s.(pc := Top)
  {
  }

  lemma OpenIs(g: Plan, s: State, n: Id, pool: set<Slot>)
    requires n in s.top.rows && IsContainer(s.top.rows[n].node.kind) && s.barrier == NoBarrier
    requires s.pc == Calling(n)
      || (IsPicked(s, n) && s.top.rows[n].state.InFlight? && (IsGoing(s) || AllSettled(s.branches)))
    requires IsAdmission(s.branches, n, Limit(s.top.rows[n].node.kind), pool)
    ensures Enabled(g, s, OpenPool(n, pool))
    ensures Apply(g, s, OpenPool(n, pool))
      == s.(pc := Pooling(n, s.pc.Calling?), threads := map slot | slot in pool :: Entering)
  {
    hide IsScheduled, IsAdmission;
  }

  lemma ClosingIs(g: Plan, s: State, l: Label)
    requires AllOut(s) && ClosesPool(l) && (l.LateClose? ==> s.barrier == InterruptBarrier || IsOver(s))
    ensures Enabled(g, s, l) && Apply(g, s, l) == AfterPool(s, s.pc.node, s.pc.first, IsStopRead(s, l))
  {
    hide AfterPool, IsStopRead, AllOut;
  }

  lemma CloseIs(g: Plan, s: State, n: Id, first: bool, l: Label)
    requires s.pc == Pooling(n, first) && n in s.top.rows && forall slot | slot in s.threads :: s.threads[slot].Out?
    requires ClosesPool(l) && (l.LateClose? ==> s.barrier == InterruptBarrier || IsOver(s))
    ensures Enabled(g, s, l)
    ensures var s', k := Apply(g, s, l), s.top.rows[n].node.kind;
      var raised := if first then Holding(n, BOUNDARY) else Idle;
      if exists slot | slot in s.threads :: s.threads[slot] == Out(true)
      then s' == s.(threads := map[], pc := raised)
      else if IsStopRead(s, l)
      then s' == s.(threads := map[], pc := Top, branches := CancelBranches(s.branches, true))
      else s' == s.(threads := map[], pc := match Machine.Aggregate(k, s.branches, n)
                                           case Nothing => Top
                                           case Raises => raised
                                           case Yields(r) => Holding(n, r))
  {
    hide Machine.Aggregate, CancelBranches, Enabled, Apply, IsStopRead;
    ClosingIs(g, s, l);
  }
}
