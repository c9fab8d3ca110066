/**
 The loop of `GraphRuntime._run`: stop for a terminal or paused run, honor a barrier or a
 limit, step the one node that owes work, route its result. Whatever the world answers and
 whenever it interferes, the rows stay those of the machine.
 */
module Scheduler {
  import opened Options
  import opened Graphs
  import opened Results
  import opened Walks
  import opened Reports
  import opened Machine
  import opened Tokens
  import opened Effects
  import opened Runtime
  import opened Pool

  datatype Answer = Returned(status: RunStatus) | Raised

  /** How one turn of the loop ends: go on, return, or raise. */
  datatype Turn = GoOn(stepped: bool) | Stop(answer: Answer)

  /** What `run` returns is the status it wrote or read, unless a cancel has ended the run meanwhile. */
  predicate Agrees(returned: RunStatus, status: RunStatus) { returned == status || status == Terminal(RunCancelled) }

  /** Where a turn leaves the loop: at its head again, or out of it, for good or by an exception. */
  ghost predicate Leaves(runtime: GraphRuntime, turn: Turn)
    reads runtime
  {
    match turn
    case GoOn(_) => runtime.state.pc == Top
    case Stop(a) =>
      runtime.state.pc == Idle && (a.Returned? ==> IsAtRest(a.status) && IsAtRest(runtime.status) && Agrees(a.status, runtime.status))
  }

  /** The labels with which a turn takes up the one node that owes work. */
  predicate TakesUp(l: Label) {
    l.Resume? || l.Start? || l.Refuse? || l.Fail? || l.Poll? || l.GiveUp? || l.OpenPool? || l.Skip?
  }

  /** Controls at most, and then the node is taken up. */
  ghost predicate TakesUpNode(before: seq<Label>, after: seq<Label>) { exists l :: TakesUp(l) && After(before, after, l) }

  /**
   `_run`. The loop is cut off after `iterations` turns; `maxSteps` is the caller's own limit.
   It only returns from a run that is at rest, or because one of the two is used up.
   */
  method Run(runtime: GraphRuntime, world: World, maxSteps: Option<nat>, iterations: nat)
    returns (answer: Answer, ghost steps: nat, ghost turns: nat)
    requires runtime.Valid() && runtime.state.pc == Idle
    modifies runtime, world
    ensures runtime.Valid() && runtime.state.pc == Idle && OnlyLive(old(runtime.log), runtime.log)
    ensures answer.Returned? ==>
      if IsAtRest(answer.status) then IsAtRest(runtime.status) && Agrees(answer.status, runtime.status)
      else answer.status == runtime.status && (maxSteps == Some(steps) || turns == iterations)
    ensures steps <= turns <= iterations && |runtime.log| > |old(runtime.log)| + turns
    ensures Reachable(runtime.graph, runtime.creation, runtime.state)
  {
    hide runtime.Leads, runtime.Mirrors, Enabled, Apply, OnlyLive, Reachable, IsAtRest, Leaves, Agrees;
    EnterLoop(runtime);
    LiveIs(old(runtime.log), Enter);
    var done, left := 0, iterations;
    turns := 0;
    while (maxSteps.None? || done < maxSteps.value) && left > 0
      invariant runtime.Valid() && runtime.state.pc == Top && OnlyLive(old(runtime.log), runtime.log)
      invariant done <= turns && turns + left == iterations && (maxSteps.Some? ==> done <= maxSteps.value)
      invariant |runtime.log| > |old(runtime.log)| + turns
      decreases left
    {
      ghost var l0 := runtime.log;
      left, turns := left - 1, turns + 1;
      var turn := TakeTurn(runtime, world);
      LiveChains(old(runtime.log), l0, runtime.log);
      match turn {
        case Stop(a) =>
          TurnLeaves(runtime, turn);
          runtime.ValidIsReachable();
          return a, done, turns;
        case GoOn(stepped) =>
          TurnLeaves(runtime, turn);
          if stepped { done := done + 1; }
      }
    }
    ghost var l1 := runtime.log;
    Return(runtime);
    LiveIs(l1, Leave);
    LiveChains(old(runtime.log), l1, runtime.log);
    runtime.ValidIsReachable();
    AgreesWithItself(runtime.status);
    return Returned(runtime.status), done, turns;
  }

  lemma TurnLeaves(runtime: GraphRuntime, turn: Turn)
    requires Leaves(runtime, turn)
    ensures turn.GoOn? ==> runtime.state.pc == Top
    ensures turn.Stop? ==> runtime.state.pc == Idle
    ensures turn.Stop? && turn.answer.Returned? ==>
      IsAtRest(turn.answer.status) && IsAtRest(runtime.status) && Agrees(turn.answer.status, runtime.status)
  {
  }

  lemma AgreesWithItself(status: RunStatus)
    ensures Agrees(status, status)
  {
  }

  method EnterLoop(runtime: GraphRuntime)
    requires runtime.Valid() && runtime.state.pc == Idle
    modifies runtime
    ensures runtime.Valid() && runtime.state.pc == Top && runtime.log == old(runtime.log) + [Enter]
  {
    hide runtime.Leads, Enabled, Apply;
    EnterIs(runtime.graph, runtime.state);
    runtime.Record(Enter);
  }

  /** The thread leaves the loop. */
  method Return(runtime: GraphRuntime)
    requires runtime.Valid() && runtime.state.pc == Top
    modifies runtime
    ensures runtime.Valid() && runtime.state.pc == Idle && runtime.log == old(runtime.log) + [Leave]
    ensures runtime.status == old(runtime.status)
  {
    hide runtime.Leads, Enabled, Apply;
    LeaveIs(runtime.graph, runtime.state);
    runtime.Record(Leave);
  }

  method TakeTurn(runtime: GraphRuntime, world: World) returns (turn: Turn)
    requires runtime.Valid() && runtime.state.pc == Top
    modifies runtime, world
    ensures runtime.Valid() && OnlyLive(old(runtime.log), runtime.log)
    ensures Leaves(runtime, turn) && |runtime.log| > |old(runtime.log)|
  {
    hide runtime.Leads, runtime.Mirrors, OnlyLive, IsGoing, TakesUp, TakesUpNode;
    runtime.Hook(world);
    ControlsAreLive(old(runtime.log), runtime.log);
    ghost var l0 := runtime.log;
    var stopped, status := HonorStatus(runtime, world);
    LiveChains(old(runtime.log), l0, runtime.log);
    if stopped { return Stop(Returned(status)); }
    ghost var l1 := runtime.log;
    turn := Schedule(runtime, world);
    LiveChains(old(runtime.log), l1, runtime.log);
  }

  /** The checks at the head of the loop. */
  method HonorStatus(runtime: GraphRuntime, world: World) returns (stopped: bool, status: RunStatus)
    requires runtime.Valid() && runtime.state.pc == Top
    modifies runtime, world
    ensures runtime.Valid() && OnlyLive(old(runtime.log), runtime.log)
    ensures if stopped
            then runtime.state.pc == Idle && IsAtRest(runtime.status) && IsAtRest(status) && Agrees(status, runtime.status)
                 && |runtime.log| > |old(runtime.log)|
            else runtime.state.pc == Top && IsGoing(runtime.state) && runtime.log == old(runtime.log)
    ensures IsAtRest(old(runtime.status)) ==> status == old(runtime.status) && runtime.log == old(runtime.log) + [Leave]
    ensures old(runtime.status) == PauseRequested ==>
      status == Paused == runtime.status && old(runtime.log) + [SeePause] <= runtime.log && runtime.log[|runtime.log| - 1] == Park
    ensures !IsAtRest(old(runtime.status)) && old(runtime.status) != PauseRequested ==>
      if old(runtime.barrier) == InterruptBarrier
      then stopped && status == Terminal(RunInterrupted) && old(runtime.log) + [Drain] <= runtime.log
      else stopped == old(world.IsLimited())
           && (stopped ==> status == Terminal(RunFailed) && After(old(runtime.log), runtime.log, HitLimit))
  {
    hide runtime.Leads, Enabled, Apply, OnlyLive, Sound, FinishRun, After, OnlyControls;
    ghost var l0 := runtime.log;
    LiveStarts(l0);
    runtime.ValidIsReachable();
    RunningOrNot(runtime.graph, runtime.state);
    status := runtime.status;
    if runtime.status.Terminal? || runtime.status == Paused {
      Return(runtime);
      LiveIs(l0, Leave);
      return true, status;
    }
    if runtime.status == PauseRequested {
      ParkRun(runtime, world);
      return true, Paused;
    }
    if runtime.barrier == InterruptBarrier {
      StopInterrupted(runtime, world);
      return true, Terminal(RunInterrupted);
    }
    StatusIsRunning(runtime.graph, runtime.state);
    var limit := world.LimitHit();
    if limit {
      runtime.Hook(world);
      ghost var l1 := runtime.log;
      ControlsAreLive(l0, l1);
      LimitIs(runtime.graph, runtime.state);
      AfterIs(l0, l1, HitLimit);
      LiveIs(l1, HitLimit);
      runtime.End(EXHAUSTED, HitLimit, Idle);
      LiveChains(l0, l1, runtime.log);
      return true, Terminal(RunFailed);
    }
    return false, status;
  }

  /** The pause requested takes effect, whatever has become of the run since it was read. */
  method ParkRun(runtime: GraphRuntime, world: World)
    requires runtime.Valid() && runtime.state.pc == Top && runtime.status == PauseRequested
    modifies runtime, world`touches
    ensures runtime.Valid() && runtime.state.pc == Idle && runtime.status == Paused && OnlyLive(old(runtime.log), runtime.log)
    ensures old(runtime.log) + [SeePause] <= runtime.log && runtime.log[|runtime.log| - 1] == Park
  {
    hide runtime.Leads, Enabled, Apply, OnlyLive, OnlyControls;
    SeePauseIs(runtime.graph, runtime.state);
    runtime.Record(SeePause);
    LiveIs(old(runtime.log), SeePause);
    ghost var l1 := runtime.log;
    runtime.StorePause(world);
    PauseIsLoop(l1, runtime.log);
    LiveChains(old(runtime.log), l1, runtime.log);
    PauseGrows(l1, runtime.log);
  }

  lemma PauseGrows(before: seq<Label>, after: seq<Label>)
    requires after != [] && OnlyControls(before, after[..|after| - 1])
    ensures before <= after
  {
  }

  /** `parallel.cancel_incomplete`, then `_finish`. */
  method StopInterrupted(runtime: GraphRuntime, world: World)
    requires runtime.Valid() && runtime.state.pc == Top && runtime.barrier == InterruptBarrier && runtime.status != Paused
    modifies runtime, world`touches
    ensures runtime.Valid() && runtime.state.pc == Idle && OnlyLive(old(runtime.log), runtime.log)
    ensures runtime.status.Terminal? && Agrees(Terminal(RunInterrupted), runtime.status) && old(runtime.log) + [Drain] <= runtime.log
  {
    hide runtime.Leads, Enabled, Apply, OnlyLive, CancelBranches, FinishRun, Sound, AllSettled;
    ghost var l0 := runtime.log;
    DrainBranches(runtime);
    LiveIs(l0, Drain);
    ghost var l1 := runtime.log;
    runtime.ValidIsReachable();
    BusyIsNotPaused(runtime.graph, runtime.state);
    runtime.Hook(world);
    ControlsAreLive(l1, runtime.log);
    ghost var l2 := runtime.log;
    LiveChains(l0, l1, l2);
    runtime.ValidIsReachable();
    BusyIsNotPaused(runtime.graph, runtime.state);
    QuitIs(runtime.graph, runtime.state);
    ghost var l := if runtime.status.Terminal? then Leave else Quit;
    runtime.End(INTERRUPTED, l, Idle);
    LiveIs(l2, l);
    LiveChains(l0, l2, runtime.log);
  }

  method DrainBranches(runtime: GraphRuntime)
    requires runtime.Valid() && runtime.state.pc == Top && runtime.barrier == InterruptBarrier && runtime.status != Paused
    modifies runtime
    ensures runtime.Valid() && runtime.state.pc == Top && runtime.log == old(runtime.log) + [Drain]
    ensures runtime.barrier == InterruptBarrier && runtime.status == old(runtime.status)
    ensures runtime.branches == CancelBranches(old(runtime.branches), true) && AllSettled(runtime.branches)
  {
    hide runtime.Leads, Enabled, Apply, CancelBranches, AllSettled;
    CancelSettles(runtime.branches);
    DrainIs(runtime.graph, runtime.state);
    runtime.CancelBranchRows(true);
    runtime.Record(Drain);
  }

  /** The node to step, or the result to route. */
  method Schedule(runtime: GraphRuntime, world: World) returns (turn: Turn)
    requires runtime.Valid() && runtime.state.pc == Top && IsGoing(runtime.state)
    modifies runtime, world
    ensures runtime.Valid() && OnlyLive(old(runtime.log), runtime.log)
    ensures Leaves(runtime, turn) && TakesUpNode(old(runtime.log), runtime.log) && |runtime.log| > |old(runtime.log)|
  {
    hide runtime.Leads, Enabled, Apply, OnlyLive, Sound, IsScheduled, IsUnresolved, KeepsRows, Machine.IsRefused, OneToken, IsAtRest;
    hide TakesUpNode, After, CanSchedule;
    ghost var l0 := runtime.log;
    runtime.ValidIsReachable();
    SchedulingFacts(runtime.graph, runtime.state);
    var row := runtime.NextNodeRow();
    if row.None? {
      var unresolved := runtime.UnresolvedResultRow();
      TokenIsUnresolved(runtime.state.top, unresolved);
      RouteUnresolved(runtime, world, unresolved.value);
      TakesUpFirst(l0, l0 + [Resume(unresolved.value)], runtime.log, Resume(unresolved.value));
      return GoOn(false);
    }
    ScheduledRow(runtime.graph, runtime.state, row.value);
    if runtime.nodes[row.value].state.InFlight? {
      turn := Continue(runtime, world, row.value);
    } else {
      turn := StartNode(runtime, world, row.value);
    }
    TakingUpIsALabel(l0, runtime.log);
  }

  lemma TakesUpFirst(before: seq<Label>, mid: seq<Label>, after: seq<Label>, l: Label)
    requires mid == before + [l] && mid <= after && TakesUp(l)
    ensures TakesUpNode(before, after) && |after| > |before|
  {
    hide After, OnlyControls;
    NoControls(before);
    AfterIs(before, before, l);
    AfterGrows(before, mid, after, l);
  }

  lemma TakesUpAfter(before: seq<Label>, after: seq<Label>, l: Label)
    requires After(before, after, l) && TakesUp(l)
    ensures TakesUpNode(before, after)
  {
  }

  lemma TakingUpIsALabel(before: seq<Label>, after: seq<Label>)
    requires TakesUpNode(before, after)
    ensures |after| > |before|
  {
    var l :| TakesUp(l) && After(before, after, l);
    var k: nat :| k < |after| && OnlyControls(before, after[..k]) && after[k] == l;
  }

  /** A result that was persisted and not routed, as after a pause or a crash. */
  method RouteUnresolved(runtime: GraphRuntime, world: World, n: Id)
    requires runtime.Valid() && runtime.state.pc == Top && IsGoing(runtime.state) && IsUnresolved(runtime.nodes, n)
    modifies runtime, world
    ensures runtime.Valid() && runtime.state.pc == Top && OnlyLive(old(runtime.log), runtime.log)
    ensures old(runtime.log) + [Resume(n)] <= runtime.log && Routes(old(runtime.log) + [Resume(n)], runtime.log)
  {
    hide runtime.Leads, Enabled, Apply, OnlyLive, IsUnresolved, Routes, OnlyControls;
    ResumeIs(runtime.graph, runtime.state, n);
    runtime.Record(Resume(n));
    LiveIs(old(runtime.log), Resume(n));
    ghost var l1 := runtime.log;
    runtime.Hook(world);
    ghost var l2 := runtime.log;
    runtime.RouteResult(n, world);
    ControlsThenRoutes(l1, l2, runtime.log);
    RoutesAreLoop(l1, runtime.log);
    LiveChains(old(runtime.log), l1, runtime.log);
  }

  /** A running node: step the container, or ask about the handle. */
  method Continue(runtime: GraphRuntime, world: World, n: Id) returns (turn: Turn)
    requires runtime.Valid() && n in runtime.nodes && CanSchedule(runtime.state, n) && runtime.nodes[n].state.InFlight?
    modifies runtime, world
    ensures runtime.Valid() && OnlyLive(old(runtime.log), runtime.log)
    ensures Leaves(runtime, turn) && (turn.Stop? ==> turn.answer == Raised) && TakesUpNode(old(runtime.log), runtime.log)
    ensures IsContainer(old(runtime.nodes)[n].node.kind) ==>
      After(old(runtime.log), runtime.log, Skip) || Opens(old(runtime.log), runtime.log, n)
    ensures !IsContainer(old(runtime.nodes)[n].node.kind) && old(runtime.HasHandle(n)) ==>
      match old(world.Report(runtime.nodes[n].node.kind))
      case None => turn == Stop(Raised) && runtime.log == old(runtime.log) + [Fail(n)] && runtime.nodes == old(runtime.nodes)
      case Some(r) => old(runtime.log) + [Poll(n, r)] <= runtime.log && (turn == Stop(Raised) <==> r == Awaiting(""))
    ensures !IsContainer(old(runtime.nodes)[n].node.kind) && !old(runtime.HasHandle(n)) ==>
      runtime.status.Terminal? && (After(old(runtime.log), runtime.log, GiveUp(n)) || After(old(runtime.log), runtime.log, Skip))
  {
    hide runtime.Leads, Enabled, OnlyLive, OnlyLoop, CanSchedule, Machine.Aggregate, After, TakesUpNode, OnlyControls;
    ghost var l0 := runtime.log;
    if IsContainer(runtime.nodes[n].node.kind) {
      var parallel := new ParallelCoordinator(runtime);
      PcIsTop(runtime.state, n);
      var answer := parallel.Step(n, world);
      SteppingTakesUp(l0, runtime.log, n);
      match answer {
        case Nothing => return GoOn(true);
        case Raises => return Stop(Raised);
        case Yields(r) =>
          ghost var l1 := runtime.log;
          var raised := runtime.Absorb(n, r, world);
          LoopIsLive(l1, runtime.log);
          LiveChains(l0, l1, runtime.log);
          SteppingGrows(l0, l1, runtime.log, n);
          return if raised then Stop(Raised) else GoOn(true);
      }
    }
    if runtime.nodes[n].node.kind.Join? { JoinHasNoHandle(runtime, n); }
    ghost var reported := world.Report(runtime.nodes[n].node.kind);
    ghost var handled := runtime.HasHandle(n);
    var raised := runtime.ContinueExternal(n, world);
    LoopIsLive(l0, runtime.log);
    if handled { TakesUpFirst(l0, l0 + [PollLabel(n, reported)], runtime.log, PollLabel(n, reported)); }
    else { TakesUpAfter(l0, runtime.log, if After(l0, runtime.log, GiveUp(n)) then GiveUp(n) else Skip); }
    return if raised then Stop(Raised) else GoOn(true);
  }

  /** The label of a poll of the run's own node: it answers, or raises. */
  function PollLabel(n: Id, r: Option<Result>): Label {
    match r
    case None => Fail(n)
    case Some(a) => Poll(n, a)
  }

  lemma SteppingTakesUp(before: seq<Label>, after: seq<Label>, n: Id)
    requires After(before, after, Skip) || Opens(before, after, n)
    ensures TakesUpNode(before, after)
  {
    hide After;
    if After(before, after, Skip) { TakesUpAfter(before, after, Skip); }
    else {
      var pool :| After(before, after, OpenPool(n, pool));
      TakesUpAfter(before, after, OpenPool(n, pool));
    }
  }

  lemma SteppingGrows(before: seq<Label>, mid: seq<Label>, after: seq<Label>, n: Id)
    requires (After(before, mid, Skip) || Opens(before, mid, n)) && mid <= after
    ensures After(before, after, Skip) || Opens(before, after, n)
    ensures TakesUpNode(before, after)
  {
    hide After;
    if After(before, mid, Skip) { AfterGrows(before, mid, after, Skip); }
    else {
      var pool :| After(before, mid, OpenPool(n, pool));
      AfterGrows(before, mid, after, OpenPool(n, pool));
    }
    SteppingTakesUp(before, after, n);
  }

  /**
   A ready node: start its attempt, get its answer, take it from there. The start raises only if a
   control has come since the head of the loop; a budget that refuses it ends the run.
   */
  method StartNode(runtime: GraphRuntime, world: World, n: Id) returns (turn: Turn)
    requires runtime.Valid() && n in runtime.nodes && CanSchedule(runtime.state, n) && runtime.nodes[n].state.Ready?
    modifies runtime, world
    ensures runtime.Valid() && OnlyLive(old(runtime.log), runtime.log)
    ensures Leaves(runtime, turn) && TakesUpNode(old(runtime.log), runtime.log)
    ensures var limit := old(world.IsLimited());
      || (After(old(runtime.log), runtime.log, Fail(n)) && turn == Stop(Raised) && runtime.nodes == old(runtime.nodes)
          && runtime.log != old(runtime.log) + [Fail(n)])
      || (if limit || IsRefused(old(runtime.state), old(runtime.nodes)[n])
          then After(old(runtime.log), runtime.log, Refuse(n, limit)) && turn == Stop(Returned(Terminal(RunFailed)))
          else After(old(runtime.log), runtime.log, Start(n)))
  {
    hide runtime.Leads, Enabled, Apply, OnlyLive, IsScheduled, Machine.StartAttempt, IsRefused, After, TakesUpNode, OnlyControls, FinishRun;
    var limit := world.LimitHit();
    ghost var l0, s0 := runtime.log, runtime.state;
    runtime.Hook(world);
    ghost var l1, s1 := runtime.log, runtime.state;
    ControlsAreLive(l0, l1);
    SameRefusal(s0, s1, runtime.nodes[n]);
    var outcome := runtime.StartAttempt(n, limit);
    if outcome == Barred {
      Taken(l0, l1, Fail(n), runtime.log);
      return Stop(Raised);
    }
    if outcome == Refused {
      EndRefused(runtime, world, n, limit);
      ControlsThen(l0, l1, runtime.log, Refuse(n, limit));
      LiveChains(l0, l1, runtime.log);
      return Stop(Returned(Terminal(RunFailed)));
    }
    Taken(l0, l1, Start(n), runtime.log);
    StartedAt(s1, n);
    turn := InvokeStarted(runtime, world, n, l0);
  }

  /** The attempt has begun; `before` is the log of the turn's beginning. */
  method InvokeStarted(runtime: GraphRuntime, world: World, n: Id, ghost before: seq<Label>) returns (turn: Turn)
    requires runtime.Valid() && n in runtime.nodes && runtime.state.pc == Calling(n)
    requires OnlyLive(before, runtime.log) && After(before, runtime.log, Start(n))
    modifies runtime, world
    ensures runtime.Valid() && OnlyLive(before, runtime.log) && Leaves(runtime, turn)
    ensures After(before, runtime.log, Start(n)) && TakesUpNode(before, runtime.log)
  {
    hide runtime.Leads, runtime.Mirrors, Enabled, Apply, OnlyLive, After, TakesUpNode, Leaves;
    ghost var l2 := runtime.log;
    turn := Invoke(runtime, world, n);
    LiveChains(before, l2, runtime.log);
    AfterGrows(before, l2, runtime.log, Start(n));
    TakesUpAfter(before, runtime.log, Start(n));
  }

  /** The controls of a turn, and then the label that takes the node up. */
  lemma Taken(l0: seq<Label>, l1: seq<Label>, l: Label, log: seq<Label>)
    requires OnlyControls(l0, l1) && log == l1 + [l] && TakesUp(l)
    ensures After(l0, log, l) && TakesUpNode(l0, log) && OnlyLive(l0, log)
    ensures l1 != l0 ==> log != l0 + [l]
  {
    hide OnlyControls, After, TakesUp;
    AfterIs(l0, l1, l);
    TakesUpAfter(l0, log, l);
    ControlsAreLive(l0, l1);
    TakingUpIsLive(l);
    LiveIs(l1, l);
    LiveChains(l0, l1, log);
  }

  lemma TakingUpIsLive(l: Label)
    requires TakesUp(l)
    ensures !l.Crash? && !l.Recover? && !l.Restart?
  {
  }

  lemma ControlsThen(a: seq<Label>, b: seq<Label>, c: seq<Label>, l: Label)
    requires OnlyControls(a, b) && After(b, c, l) && TakesUp(l)
    ensures After(a, c, l) && TakesUpNode(a, c)
  {
    var k: nat :| k < |c| && OnlyControls(b, c[..k]) && c[k] == l;
    ControlsChain(a, b, c[..k]);
    TakesUpAfter(a, c, l);
  }

  lemma SameRefusal(s: State, s': State, r: Row)
    requires s'.calls == s.calls && s'.budget == s.budget
    ensures IsRefused(s', r) == IsRefused(s, r)
  {
  }

  /** `_finish` after a refused start. */
  method EndRefused(runtime: GraphRuntime, world: World, n: Id, limit: bool)
    requires runtime.Valid() && n in runtime.nodes && IsPicked(runtime.state, n) && runtime.nodes[n].state.Ready?
    requires IsGoing(runtime.state) && (limit || IsRefused(runtime.state, runtime.nodes[n]))
    modifies runtime, world`touches
    ensures runtime.Valid() && runtime.state.pc == Idle && OnlyLive(old(runtime.log), runtime.log)
    ensures runtime.status.Terminal? && Agrees(Terminal(RunFailed), runtime.status)
    ensures After(old(runtime.log), runtime.log, Refuse(n, limit))
  {
    hide runtime.Leads, Enabled, Apply, OnlyLive, IsScheduled, IsRefused, After, OnlyControls, FinishRun;
    ghost var s0 := runtime.state;
    runtime.Hook(world);
    ghost var l1 := runtime.log;
    ControlsAreLive(old(runtime.log), l1);
    SameRefusal(s0, runtime.state, runtime.nodes[n]);
    RefuseIs(runtime.graph, runtime.state, n, limit);
    AfterIs(old(runtime.log), l1, Refuse(n, limit));
    LiveIs(l1, Refuse(n, limit));
    runtime.End(EXHAUSTED, Refuse(n, limit), Idle);
    LiveChains(old(runtime.log), l1, runtime.log);
  }

  /** `_invoke`, and what the loop makes of the result. */
  method Invoke(runtime: GraphRuntime, world: World, n: Id) returns (turn: Turn)
    requires runtime.Valid() && n in runtime.nodes && runtime.state.pc == Calling(n)
    modifies runtime, world
    ensures runtime.Valid() && OnlyLive(old(runtime.log), runtime.log)
    ensures Leaves(runtime, turn) && old(runtime.log) <= runtime.log
    ensures var k := old(runtime.nodes)[n].node.kind;
      && (IsContainer(k) ==> After(old(runtime.log), runtime.log, Skip) || Opens(old(runtime.log), runtime.log, n))
      && (k.Join? ==> old(runtime.log) + [AnswerJoin, Persist] <= runtime.log)
  {
    hide runtime.Leads, runtime.Mirrors, Enabled, Apply, OnlyLive, Machine.Aggregate, IsAtRest, After, OnlyControls;
    var r := BOUNDARY;
    if IsContainer(runtime.nodes[n].node.kind) {
      var parallel := new ParallelCoordinator(runtime);
      var answer := parallel.Step(n, world);
      LiveGrows(old(runtime.log), runtime.log);
      if answer.Nothing? { return GoOn(true); }
      r := if answer.Yields? then answer.result else BOUNDARY;
    } else if runtime.nodes[n].node.kind.Join? {
      r := runtime.Join(n);
      LiveIs(old(runtime.log), AnswerJoin);
    } else {
      r := runtime.Call(n, world);
    }
    ghost var l1 := runtime.log;
    turn := Conclude(runtime, world, n, r);
    LiveChains(old(runtime.log), l1, runtime.log);
    if After(old(runtime.log), l1, Skip) || Opens(old(runtime.log), l1, n) { SteppingGrows(old(runtime.log), l1, runtime.log, n); }
  }

  /** Persist the result, honor a barrier, check the node's limits, route. */
  method Conclude(runtime: GraphRuntime, world: World, n: Id, r: Result) returns (turn: Turn)
    requires runtime.Valid() && n in runtime.nodes && runtime.state.pc == Holding(n, r)
    modifies runtime, world
    ensures runtime.Valid() && OnlyLive(old(runtime.log), runtime.log)
    ensures Leaves(runtime, turn)
    ensures if r == Awaiting("") then runtime.log == old(runtime.log) + [Abort] && turn == Stop(Raised)
            else if r.Awaiting? then runtime.log == old(runtime.log) + [Persist] && turn == GoOn(true)
            else old(runtime.log) + [Persist] <= runtime.log && After(old(runtime.log) + [Persist], runtime.log, Honor)
  {
    hide runtime.Leads, runtime.Mirrors, Enabled, Apply, OnlyLive, OnlyLoop, IsAtRest, After;
    var raised := runtime.TakeResult(n, r);
    LiveIs(old(runtime.log), if raised then Abort else Persist);
    if raised { return Stop(Raised); }
    if r.Awaiting? { return GoOn(true); }
    ghost var l1 := runtime.log;
    runtime.HonorBarrierAfterResult(world);
    LoopIsLive(l1, runtime.log);
    LoopGrows(l1, runtime.log);
    LiveChains(old(runtime.log), l1, runtime.log);
    ghost var l2 := runtime.log;
    turn := GoOnOrStop(runtime, world, n);
    LiveGrows(l2, runtime.log);
    AfterGrows(l1, l2, runtime.log, Honor);
    LiveChains(old(runtime.log), l2, runtime.log);
  }

  /** What follows the barrier: return, end for the node's limits, or route. */
  method GoOnOrStop(runtime: GraphRuntime, world: World, n: Id) returns (turn: Turn)
    requires runtime.Valid()
    requires if runtime.state.pc == Top then IsAtRest(runtime.status)
             else runtime.state.pc == Routing(n) && runtime.status != Paused
    modifies runtime, world
    ensures runtime.Valid() && OnlyLive(old(runtime.log), runtime.log)
    ensures Leaves(runtime, turn)
    ensures if IsAtRest(old(runtime.status)) then turn == Stop(Returned(old(runtime.status))) && runtime.status == old(runtime.status)
            else if old(world.IsLimited())
            then After(old(runtime.log), runtime.log, HitNodeLimit) && turn == Stop(Returned(Terminal(RunFailed)))
            else Routes(old(runtime.log), runtime.log) && turn == GoOn(true)
  {
    hide runtime.Leads, runtime.Mirrors, Enabled, Apply, OnlyLive, FinishRun, After, Routes;
    ghost var l0 := runtime.log;
    if IsAtRest(runtime.status) {
      LeaveAtRest(runtime);
      return Stop(Returned(runtime.status));
    }
    var limit := world.LimitHit();
    if limit {
      StopAtLimit(runtime, world, n);
      return Stop(Returned(Terminal(RunFailed)));
    }
    runtime.RouteResult(n, world);
    RoutesAreLoop(l0, runtime.log);
    return GoOn(true);
  }

  /** The run is paused or over: the result stays unrouted, and the loop is left. */
  method LeaveAtRest(runtime: GraphRuntime)
    requires runtime.Valid() && IsAtRest(runtime.status) && (runtime.state.pc == Top || runtime.state.pc.Routing?)
    modifies runtime
    ensures runtime.Valid() && runtime.state.pc == Idle && OnlyLive(old(runtime.log), runtime.log)
    ensures runtime.status == old(runtime.status)
  {
    hide runtime.Leads, Enabled, Apply, OnlyLive;
    ghost var l0 := runtime.log;
    LiveStarts(l0);
    if runtime.state.pc.Routing? {
      SkipIsEnabled(runtime.graph, runtime.state);
      LiveIs(l0, Skip);
      runtime.Record(Skip);
    }
    ghost var l1 := runtime.log;
    Return(runtime);
    LiveIs(l1, Leave);
    LiveChains(l0, l1, runtime.log);
  }

  /** The node's own limit ends the run. */
  method StopAtLimit(runtime: GraphRuntime, world: World, n: Id)
    requires runtime.Valid() && runtime.state.pc == Routing(n) && runtime.status != Paused
    modifies runtime, world`touches
    ensures runtime.Valid() && runtime.state.pc == Idle && runtime.status.Terminal?
    ensures !old(runtime.status).Terminal? ==> Agrees(Terminal(RunFailed), runtime.status)
    ensures OnlyLive(old(runtime.log), runtime.log) && After(old(runtime.log), runtime.log, HitNodeLimit)
  {
    hide runtime.Leads, runtime.Mirrors, Enabled, Apply, OnlyLive, FinishRun, After, OnlyControls;
    ghost var l0 := runtime.log;
    runtime.Hook(world);
    ghost var l1 := runtime.log;
    ControlsAreLive(l0, l1);
    NodeLimitIs(runtime.graph, runtime.state);
    AfterIs(l0, l1, HitNodeLimit);
    LiveIs(l1, HitNodeLimit);
    runtime.End(EXHAUSTED, HitNodeLimit, Top);
    ghost var l2 := runtime.log;
    LiveChains(l0, l1, l2);
    Return(runtime);
    AfterGrows(l0, l2, runtime.log, HitNodeLimit);
    LiveIs(l2, Leave);
    LiveChains(l0, l2, runtime.log);
  }

  // ---- the labels of the loop ----

  lemma EnterIs(g: Plan, s: State)
    requires s.pc == Idle
    ensures Enabled(g, s, Enter) && Apply(g, s, Enter) == s.(pc := Top)
  {
  }

  lemma LeaveIs(g: Plan, s: State)
    requires s.pc == Top
    ensures Enabled(g, s, Leave) && Apply(g, s, Leave) == s.(pc := Idle)
  {
  }

  lemma SeePauseIs(g: Plan, s: State)
    requires s.pc == Top && s.status == PauseRequested
    ensures Enabled(g, s, SeePause) && Apply(g, s, SeePause) == s.(pc := Parking(true))
  {
  }

  lemma LimitIs(g: Plan, s: State)
    requires s.pc == Top && s.status != Paused
    ensures Enabled(g, s, HitLimit) && Apply(g, s, HitLimit) == FinishRun(s, EXHAUSTED).(pc := Idle)
  {
    hide FinishRun;
  }

  lemma NodeLimitIs(g: Plan, s: State)
    requires s.pc.Routing?
    ensures Enabled(g, s, HitNodeLimit) && Apply(g, s, HitNodeLimit) == FinishRun(s, EXHAUSTED).(pc := Top)
  {
    hide FinishRun;
  }

  lemma DrainIs(g: Plan, s: State)
    requires s.pc == Top && s.barrier == InterruptBarrier && s.status != Paused
    ensures Enabled(g, s, Drain) && Apply(g, s, Drain) == s.(branches := CancelBranches(s.branches, true))
  {
  }

  /** The interrupted run is finished; in a run that has been cancelled meanwhile nothing is. */
  lemma QuitIs(g: Plan, s: State)
    requires s.pc == Top && AllSettled(s.branches)
    ensures s.barrier == InterruptBarrier && s.status != Paused ==>
      Enabled(g, s, Quit) && Apply(g, s, Quit) == FinishRun(s, INTERRUPTED).(pc := Idle)
    ensures IsOver(s) ==> Enabled(g, s, Leave) && Apply(g, s, Leave) == FinishRun(s, INTERRUPTED).(pc := Idle)
  {
  }

  lemma StatusIsRunning(g: Plan, s: State)
    requires Sound(g, s) && !IsOver(s) && s.status != Paused && s.status != PauseRequested && s.barrier != InterruptBarrier
    ensures IsGoing(s)
  {
    hide SoundWalk, SoundPc, SoundBranches, SoundThreads, ValidPlan;
  }

  lemma SchedulingFacts(g: Plan, s: State)
    requires Sound(g, s)
    ensures KeepsRows(g, s.top) && OneToken(s.top)
  {
    hide KeepsRows, OneToken, SoundBranches, SoundThreads, ValidPlan, SoundPc;
  }

  /** With no active node the token is a result to route: the loop's internal error is unreachable. */
  lemma TokenIsUnresolved(w: Walk, unresolved: Option<Id>)
    requires OneToken(w) && forall m | m in w.rows :: !IsActive(w.rows[m])
    requires unresolved.None? ==> forall m | m in w.rows :: !IsUnrouted(w.rows[m])
    ensures unresolved.Some?
  {
    assert Current(w).state.Settled?;
  }

  lemma ResumeIs(g: Plan, s: State, n: Id)
    requires s.pc == Top && IsGoing(s) && IsUnresolved(s.top.rows, n)
    ensures Enabled(g, s, Resume(n)) && Apply(g, s, Resume(n)) == s.(pc := Routing(n))
  {
    hide IsUnresolved;
  }

  lemma ScheduledRow(g: Plan, s: State, n: Id)
    requires s.pc == Top && IsGoing(s) && IsScheduled(s.top.rows, n)
    ensures CanSchedule(s, n) && n in s.top.rows && (s.top.rows[n].state.InFlight? || s.top.rows[n].state.Ready?)
  {
  }

  lemma PcIsTop(s: State, n: Id)
    requires CanSchedule(s, n)
    ensures s.pc == Top && !s.pc.Calling? && s.barrier == NoBarrier
  {
    hide IsScheduled;
  }

  lemma JoinHasNoHandle(runtime: GraphRuntime, n: Id)
    requires runtime.Valid() && n in runtime.nodes && runtime.nodes[n].node.kind.Join?
    ensures !runtime.HasHandle(n)
  {
    hide Sound, KeepsRows, OneToken;
    runtime.ValidIsReachable();
    SchedulingFacts(runtime.graph, runtime.state);
    PlainRow(runtime.graph, runtime.state.top, n);
  }

  lemma PlainRow(p: Plan, w: Walk, n: Id)
    requires KeepsRows(p, w) && n in w.rows && !IsExternal(w.rows[n].node.kind)
    ensures w.rows[n].trigger.Untriggered?
  {
  }

  lemma RefuseIs(g: Plan, s: State, n: Id, limit: bool)
    requires IsPicked(s, n) && s.top.rows[n].state.Ready?
    ensures limit || IsRefused(s, s.top.rows[n]) ==>
      Enabled(g, s, Refuse(n, limit)) && Apply(g, s, Refuse(n, limit)) == FinishRun(s, EXHAUSTED).(pc := Idle)
  {
    hide IsScheduled, FinishRun, IsRefused;
  }

  lemma StartedAt(s: State, n: Id)
    requires n in s.top.rows
    ensures var s' := Machine.StartAttempt(s, n); s'.pc == Calling(n) && n in s'.top.rows
  {
  }
}
