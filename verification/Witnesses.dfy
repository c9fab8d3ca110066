/**
 Runs from the creation. Where the code does less than it promises, the modules say so of any
 state of a given shape; here such states are reached, in every graph that begins with a nested
 subgraph or with an external verifier.
 */
module Witnesses {
  import opened Options
  import opened Graphs
  import opened Results
  import opened Walks
  import opened Reports
  import opened Machine
  import opened Tokens
  import opened Effects
  import opened Admission
  import opened Discipline
  import opened Recovery
  import opened LateWrites
  import opened Pauses
  import Ordering

  /** The one branch of the nested subgraph the graph begins with. */
  function Only(g: Plan): Slot { Slot(g.entry, "subgraph") }

  /** The graph begins with a nested subgraph, that begins with an agent and has no edges; neither has a budget of its own. */
  ghost predicate BeginsNested(g: Plan) {
    && ValidGraph(g) && NodeOf(g, g.entry).kind.Nested? && NodeOf(g, g.entry).budget.None?
    && var p := NodeOf(g, g.entry).kind.subgraph;
       p.edges == [] && p.entry in Ids(p) && NodeOf(p, p.entry).kind == Agent && NodeOf(p, p.entry).budget.None?
  }

  /** The smallest such graph. */
  const SMALLEST := Plan("n", [Node("n", Nested(Plan("a", [Node("a", Agent, None)], [])), None)], [])

  lemma SmallestBeginsNested()
    ensures BeginsNested(SMALLEST)
  {
    var p := Plan("a", [Node("a", Agent, None)], []);
    var n := Node("n", Nested(p), None);
    assert p.nodes[0].id == "a" && SMALLEST.nodes[0] == n;
    assert p.nodes[0] in p.nodes && n in SMALLEST.nodes;
    assert "a" in Ids(p) && "n" in Ids(SMALLEST);
    assert NodeOf(SMALLEST, "n") == n && NodeOf(p, "a") == Node("a", Agent, None);
    assert ValidSubgraph(p);
    assert ValidNode(SMALLEST, n);
  }

  /** A run at whose rows nothing has been done yet. */
  ghost predicate IsUnstarted(g: Plan, s: State)
    requires ValidGraph(g)
  {
    && s.pc == Idle && IsGoing(s) && s.ending.None? && s.report.None? && s.calls == 0 && s.threads == map[]
    && s.top == Fresh(g) && s.branches == InitBranches(g)
  }

  lemma InitIsUnstarted(g: Plan, budget: Budget)
    requires ValidGraph(g)
    ensures IsUnstarted(g, Init(g, budget))
  {
    hide OrderOf, PlanOf, Fresh, InitBranches, ValidGraph;
  }

  // ---- up to a thread that is about to start ----

  ghost predicate IsAboutToStart(g: Plan, s: State)
    requires ValidGraph(g)
  {
    && s.pc == Pooling(g.entry, true) && IsGoing(s) && s.ending.None? && s.calls == 0
    && s.threads == map[Only(g) := Starting] && s.branches == InitBranches(g)
  }

  lemma OnlyBranch(g: Plan)
    requires BeginsNested(g)
    ensures Only(g) in Slots(g) && Only(g) in InitBranches(g) && UnsettledOf(InitBranches(g), g.entry) == {Only(g)}
    ensures InitBranches(g)[Only(g)].plan == NodeOf(g, g.entry).kind.subgraph && InitBranches(g)[Only(g)].status.Pending?
    ensures InitBranches(g)[Only(g)].walk == Fresh(NodeOf(g, g.entry).kind.subgraph)
  {
    var n, bs := NodeOf(g, g.entry), InitBranches(g);
    var b := ParallelBranch("subgraph", n.kind.subgraph);
    assert b in BranchesOf(n.kind) && n in g.nodes;
    assert Only(g) in Slots(g);
    forall slot | slot in bs && slot.container == g.entry ensures slot == Only(g) {
      var m, c :| m in g.nodes && c in BranchesOf(m.kind) && slot == Slot(m.id, c.id);
      NodeIsUnique(g, m);
    }
  }

  lemma OnlyIsAdmitted(g: Plan)
    requires BeginsNested(g)
    ensures IsAdmission(InitBranches(g), g.entry, 1, {Only(g)})
  {
    hide InitBranches, BeginsNested, UnsettledOf, Slots;
    OnlyBranch(g);
  }

  /** Into the loop, into the container, into its pool, and past the thread's look. */
  function ToTheStart(g: Plan): seq<Label> { [Enter, Start(g.entry)] + [OpenPool(g.entry, {Only(g)}), Look(Only(g))] }

  lemma EntryIsScheduled(g: Plan, s: State)
    requires BeginsNested(g) && s.top == Fresh(g)
    ensures IsScheduled(s.top.rows, g.entry) && !IsRefused(s, s.top.rows[g.entry]) && s.top.rows[g.entry].state.Ready?
    ensures s.top.rows[g.entry].node == NodeOf(g, g.entry)
  {
    hide ValidNode;
    FreshHasOneToken(g);
    SchedulerFindsTheToken(s.top, g.entry);
  }

  lemma StartsContainer(g: Plan, s: State)
    requires BeginsNested(g) && IsUnstarted(g, s)
    ensures IsRun(g, s, [Enter, Start(g.entry)])
    ensures var s' := Exec(g, s, [Enter, Start(g.entry)]);
      && s'.pc == Calling(g.entry) && IsGoing(s') && s'.ending.None? && s'.calls == 0 && s'.threads == map[]
      && g.entry in s'.top.rows && s'.top.rows[g.entry].node == NodeOf(g, g.entry) && s'.branches == s.branches
      && s'.sweeping == s.sweeping && s'.budget == s.budget
  {
    hide Fresh, InitBranches, IsScheduled, IsRefused, MainAttempt, ValidGraph, Enabled, Apply, IsRun, Exec;
    EnterIsEnabled(g, s);
    var s1 := Apply(g, s, Enter);
    EntryIsScheduled(g, s1);
    StartIsThis(g, s1, g.entry);
    TwoSteps(g, s, Enter, Start(g.entry));
  }

  lemma EnterIsEnabled(g: Plan, s: State)
    requires s.pc == Idle
    ensures Enabled(g, s, Enter) && Apply(g, s, Enter) == s.(pc := Top)
  {
  }

  lemma StartIsThis(g: Plan, s: State, n: Id)
    requires CanSchedule(s, n) && s.top.rows[n].state.Ready? && !IsRefused(s, s.top.rows[n])
    ensures Enabled(g, s, Start(n)) && Apply(g, s, Start(n)) == StartAttempt(s, n)
  {
    hide IsScheduled, IsRefused, StartAttempt;
  }

  lemma OpensPool(g: Plan, s: State)
    requires BeginsNested(g) && s.pc == Calling(g.entry) && IsGoing(s) && s.branches == InitBranches(g)
    requires g.entry in s.top.rows && s.top.rows[g.entry].node == NodeOf(g, g.entry)
    ensures var ls := [OpenPool(g.entry, {Only(g)}), Look(Only(g))];
      IsRun(g, s, ls)
      && Exec(g, s, ls) == s.(pc := Pooling(g.entry, true), threads := map[Only(g) := Starting])
  {
    hide InitBranches, IsRun, Exec, IsAdmission, Enabled, Apply, ValidGraph;
    OnlyIsAdmitted(g);
    OpenIsThis(g, s, g.entry, {Only(g)});
    OneThread(Only(g));
    LookFindsTheStart(g, Apply(g, s, OpenPool(g.entry, {Only(g)})));
    TwoSteps(g, s, OpenPool(g.entry, {Only(g)}), Look(Only(g)));
  }

  lemma OneThread(slot: Slot)
    ensures var pool := {slot}; (map x | x in pool :: Entering) == map[slot := Entering]
  {
  }

  lemma OpenIsThis(g: Plan, s: State, n: Id, pool: set<Slot>)
    requires n in s.top.rows && IsContainer(s.top.rows[n].node.kind) && s.barrier == NoBarrier && s.pc == Calling(n)
    requires IsAdmission(s.branches, n, Limit(s.top.rows[n].node.kind), pool)
    ensures Enabled(g, s, OpenPool(n, pool))
    ensures Apply(g, s, OpenPool(n, pool)) == s.(pc := Pooling(n, true), threads := map slot | slot in pool :: Entering)
  {
    hide IsAdmission, IsScheduled;
  }

  lemma LookFindsTheStart(g: Plan, s: State)
    requires BeginsNested(g) && s.barrier == NoBarrier && s.branches == InitBranches(g)
    requires s.threads == map[Only(g) := Entering]
    ensures Enabled(g, s, Look(Only(g)))
    ensures Apply(g, s, Look(Only(g))) == s.(threads := map[Only(g) := Starting])
  {
    hide InitBranches, ValidGraph, Slots, UnsettledOf;
    OnlyBranch(g);
    BranchLooks(g, s, Only(g));
    assert s.threads[Only(g) := Starting] == map[Only(g) := Starting];
  }

  lemma BranchLooks(g: Plan, s: State, slot: Slot)
    requires HasBranchNode(s, slot) && s.threads[slot].Entering?
    ensures Enabled(g, s, Look(slot)) && Apply(g, s, Look(slot)) == SetThread(s, slot, LookAtBranch(s, slot))
  {
    hide LookAtBranch;
  }

  lemma ReachesTheStart(g: Plan, s: State)
    requires BeginsNested(g) && IsUnstarted(g, s)
    ensures IsRun(g, s, ToTheStart(g)) && IsAboutToStart(g, Exec(g, s, ToTheStart(g)))
    ensures var s' := Exec(g, s, ToTheStart(g)); s'.sweeping == s.sweeping && s'.budget == s.budget
  {
    hide BeginsNested, ValidGraph, InitBranches, IsRun, Exec;
    StartsContainer(g, s);
    OpensPool(g, Exec(g, s, [Enter, Start(g.entry)]));
    RunsChain(g, s, [Enter, Start(g.entry)], [OpenPool(g.entry, {Only(g)}), Look(Only(g))]);
  }

  // ---- a pause that fails a container ----

  /** In every such graph a pause that meets the branch about to start makes the container's step fail. */
  lemma PauseFailsTheFirstContainer(g: Plan, budget: Budget)
    requires BeginsNested(g)
    ensures var ls := ToTheStart(g) + [Control(Pause), StartBranch(Only(g), false)] + [ClosePool];
      IsRun(g, Init(g, budget), ls) && Exec(g, Init(g, budget), ls).pc == Holding(g.entry, BOUNDARY)
  {
    hide BeginsNested, ValidGraph, IsUnstarted, InitBranches, Init, IsRun, Exec, Enabled, Apply, ToTheStart, Sound;
    NestedIsValid(g);
    var s0 := Init(g, budget);
    InitIsUnstarted(g, budget);
    ReachesTheStart(g, s0);
    var s := Exec(g, s0, ToTheStart(g));
    InitIsSound(g, budget);
    RunKeepsSound(g, s0, ToTheStart(g));
    PauseCanFailAContainer(g, s, Only(g));
    var pause := [Control(Pause), StartBranch(Only(g), false)];
    RunsChain(g, s0, ToTheStart(g), pause);
    OneStep(g, Exec(g, s, pause), ClosePool);
    RunsChain(g, s0, ToTheStart(g) + pause, [ClosePool]);
  }

  lemma NestedIsValid(g: Plan)
    requires BeginsNested(g)
    ensures ValidGraph(g)
  {
  }

  lemma OneStep(g: Plan, s: State, l: Label)
    requires Enabled(g, s, l)
    ensures IsRun(g, s, [l]) && Exec(g, s, [l]) == Apply(g, s, l)
  {
    hide Enabled, Apply;
    assert [l][1..] == [];
    assert IsRun(g, Apply(g, s, l), []);
  }

  // ---- a cancelled row that is rewritten ----

  const DONE := Executed(Succeeded, {}, "", None)

  function ToTheRoute(g: Plan): seq<Label> {
    [StartBranch(Only(g), false), AnswerBranch(Only(g), DONE), PersistBranch(Only(g))]
  }

  lemma BranchAnswers(g: Plan, s: State)
    requires BeginsNested(g) && IsAboutToStart(g, s) && s.budget.maxExecutorCalls >= 1
    ensures IsRun(g, s, ToTheRoute(g))
    ensures var s' := Exec(g, s, ToTheRoute(g));
      && !IsOver(s') && s'.threads == map[Only(g) := Leaving(DONE)]
      && HasNoWayOn(s', Only(g), DONE) && IsUnsettled(s'.branches[Only(g)])
  {
    hide InitBranches, ValidGraph, IsRun, Exec;
    OnlyBranch(g);
    var slot := Only(g);
    var s1 := Apply(g, s, StartBranch(slot, false));
    StartedBranch(g, s);
    AnsweredBranch(g, s1);
    var s2 := Apply(g, s1, AnswerBranch(slot, DONE));
    PersistedBranch(g, s2);
    hide Enabled, Apply;
    TwoSteps(g, s1, AnswerBranch(slot, DONE), PersistBranch(slot));
    OneStepMore(g, s, StartBranch(slot, false), [AnswerBranch(slot, DONE), PersistBranch(slot)]);
    assert [StartBranch(slot, false)] + [AnswerBranch(slot, DONE), PersistBranch(slot)] == ToTheRoute(g);
  }

  /** The branch, active, with its agent running. */
  ghost predicate IsWorking(g: Plan, s: State, t: Thread)
    requires BeginsNested(g)
  {
    && !IsOver(s) && s.threads == map[Only(g) := t] && Only(g) in s.branches
    && var b := s.branches[Only(g)];
       && IsUnsettled(b) && b.plan == NodeOf(g, g.entry).kind.subgraph
       && AtRow(b.walk) && Current(b.walk).state.InFlight? && Current(b.walk).node.kind == Agent
  }

  lemma StartedBranch(g: Plan, s: State)
    requires BeginsNested(g) && IsAboutToStart(g, s) && s.budget.maxExecutorCalls >= 1
    ensures Enabled(g, s, StartBranch(Only(g), false)) && IsWorking(g, Apply(g, s, StartBranch(Only(g), false)), Invoking)
  {
    hide InitBranches, ValidGraph, Enabled, Apply;
    OnlyBranch(g);
    var p := NodeOf(g, g.entry).kind.subgraph;
    assert ValidBranchNode(s, Only(g));
    StartIsEnabled(g, s, Only(g));
    assert ChooseStart(s, Only(g), false) == Begins;
    assert s.threads[Only(g) := Invoking] == map[Only(g) := Invoking];
  }

  lemma StartIsEnabled(g: Plan, s: State, slot: Slot)
    requires HasBranchNode(s, slot) && s.threads[slot].Starting?
    ensures Enabled(g, s, StartBranch(slot, false))
    ensures Apply(g, s, StartBranch(slot, false)) == CommitStart(s, slot, ChooseStart(s, slot, false))
  {
    hide ChooseStart, CommitStart;
  }

  lemma AnsweredBranch(g: Plan, s: State)
    requires BeginsNested(g) && IsWorking(g, s, Invoking)
    ensures Enabled(g, s, AnswerBranch(Only(g), DONE)) && IsWorking(g, Apply(g, s, AnswerBranch(Only(g), DONE)), Answered(DONE))
  {
    hide BeginsNested;
    assert s.threads[Only(g) := Answered(DONE)] == map[Only(g) := Answered(DONE)];
  }

  lemma PersistedBranch(g: Plan, s: State)
    requires BeginsNested(g) && IsWorking(g, s, Answered(DONE))
    ensures Enabled(g, s, PersistBranch(Only(g)))
    ensures var s' := Apply(g, s, PersistBranch(Only(g)));
      && !IsOver(s') && s'.threads == map[Only(g) := Leaving(DONE)]
      && HasNoWayOn(s', Only(g), DONE) && IsUnsettled(s'.branches[Only(g)])
  {
    hide ValidGraph;
    assert s.threads[Only(g) := Leaving(DONE)] == map[Only(g) := Leaving(DONE)];
  }

  /** In every such graph with a call to spend, a cancel before the branch routes leaves a row that the route rewrites. */
  lemma CancelledBranchSucceeds(g: Plan, budget: Budget)
    requires BeginsNested(g) && budget.maxExecutorCalls >= 1
    ensures var ls := ToTheStart(g) + ToTheRoute(g) + ([Cancel] + [RouteBranch(Only(g))]);
      && IsRun(g, Init(g, budget), ls)
      && var s := Exec(g, Init(g, budget), ls);
         s.ending == Some(CANCELLED) && Only(g) in s.branches && s.branches[Only(g)].status == Closed(Succeeded)
  {
    hide BeginsNested, ValidGraph, IsUnstarted, InitBranches, Init, IsRun, Exec, Enabled, Apply, ToTheStart, ToTheRoute, Sound;
    NestedIsValid(g);
    var s0 := Init(g, budget);
    InitIsUnstarted(g, budget);
    InitHasBudget(g, budget);
    ReachesTheStart(g, s0);
    var s := Exec(g, s0, ToTheStart(g));
    BranchAnswers(g, s);
    var t := Exec(g, s, ToTheRoute(g));
    RunsChain(g, s0, ToTheStart(g), ToTheRoute(g));
    InitIsSound(g, budget);
    RunKeepsSound(g, s0, ToTheStart(g) + ToTheRoute(g));
    LeavingRewritesCancelled(g, t, Only(g), DONE);
    RunsChain(g, s0, ToTheStart(g) + ToTheRoute(g), [Cancel] + [RouteBranch(Only(g))]);
  }

  lemma InitHasBudget(g: Plan, budget: Budget)
    requires ValidGraph(g)
    ensures Init(g, budget).budget == budget
  {
    hide InitBranches, Fresh;
  }

  // ---- a settled branch that starts again ----

  /** A pause is seen, an interrupt comes, and the pause is stored over it before the interrupt sweeps. */
  lemma PauseOvertakesSweep(g: Plan, s: State)
    requires ValidGraph(g) && IsUnstarted(g, s)
    ensures var ls := [Enter, Control(Pause), SeePause] + [Control(Interrupt), Park, Control(ResumeRun)];
      IsRun(g, s, ls) && IsUnstarted(g, Exec(g, s, ls)) && Exec(g, s, ls).sweeping && Exec(g, s, ls).budget == s.budget
  {
    hide IsRun, Exec, Enabled, Apply, ValidGraph, InitBranches, Fresh;
    PauseIsSeen(g, s);
    var s1 := Exec(g, s, [Enter, Control(Pause), SeePause]);
    InterruptIsParked(g, s1);
    ThreeSteps(g, s1, Control(Interrupt), Park, Control(ResumeRun));
    RunsChain(g, s, [Enter, Control(Pause), SeePause], [Control(Interrupt), Park, Control(ResumeRun)]);
  }

  lemma InterruptIsParked(g: Plan, s: State)
    requires s.status == PauseRequested && s.pc == Parking(true)
    ensures Enabled(g, s, Control(Interrupt))
    ensures var s1 := Apply(g, s, Control(Interrupt));
      && Enabled(g, s1, Park)
      && var s2 := Apply(g, s1, Park);
         Enabled(g, s2, Control(ResumeRun))
         && Apply(g, s2, Control(ResumeRun)) == s.(status := Running, barrier := NoBarrier, sweeping := true, pc := Idle)
  {
    hide CancelBranches, IsUncertain, RestartFrom;
  }

  /** What the sweep then does to the branch, and what its thread makes of it. */
  lemma SweptBranchStarts(g: Plan, s: State)
    requires BeginsNested(g) && IsAboutToStart(g, s) && s.sweeping && s.budget.maxExecutorCalls >= 1
    ensures var ls := [Sweep, StartBranch(Only(g), false)];
      IsRun(g, s, ls) && IsClosed(Apply(g, s, Sweep).branches, Only(g))
      && Only(g) in Exec(g, s, ls).branches && Exec(g, s, ls).branches[Only(g)].status.Active?
  {
    hide InitBranches, ValidGraph, IsRun, Exec, Enabled, Apply;
    OnlyBranch(g);
    var slot := Only(g);
    SweepIsThis(g, s);
    var s1 := Apply(g, s, Sweep);
    assert s1.branches[slot] == CancelBranch(slot, s.branches[slot], false);
    StartIsEnabled(g, s1, slot);
    TwoSteps(g, s, Sweep, StartBranch(slot, false));
  }

  lemma SweepIsThis(g: Plan, s: State)
    requires s.sweeping
    ensures Enabled(g, s, Sweep)
    ensures Apply(g, s, Sweep) == s.(branches := CancelBranches(s.branches, false), sweeping := false)
  {
    hide CancelBranches;
  }

  /** In every such graph with a call to spend, a branch that an interrupt has settled can start again. */
  lemma SettledBranchCanStart(g: Plan, budget: Budget)
    requires BeginsNested(g) && budget.maxExecutorCalls >= 1
    ensures var before := [Enter, Control(Pause), SeePause] + [Control(Interrupt), Park, Control(ResumeRun)] + ToTheStart(g);
      && IsRun(g, Init(g, budget), before + [Sweep, StartBranch(Only(g), false)])
      && IsClosed(Apply(g, Exec(g, Init(g, budget), before), Sweep).branches, Only(g))
      && var s := Exec(g, Init(g, budget), before + [Sweep, StartBranch(Only(g), false)]);
         Only(g) in s.branches && s.branches[Only(g)].status.Active?
  {
    hide BeginsNested, ValidGraph, IsUnstarted, InitBranches, Init, IsRun, Exec, Enabled, Apply, ToTheStart, IsClosed;
    NestedIsValid(g);
    var s0, over := Init(g, budget), [Enter, Control(Pause), SeePause] + [Control(Interrupt), Park, Control(ResumeRun)];
    InitIsUnstarted(g, budget);
    InitHasBudget(g, budget);
    PauseOvertakesSweep(g, s0);
    var s1 := Exec(g, s0, over);
    ReachesTheStart(g, s1);
    var s2 := Exec(g, s1, ToTheStart(g));
    RunsChain(g, s0, over, ToTheStart(g));
    SweptBranchStarts(g, s2);
    RunsChain(g, s0, over + ToTheStart(g), [Sweep, StartBranch(Only(g), false)]);
  }

  // ---- an answer that is forgotten ----

  /** In every graph that begins with an external verifier, its answer at once is durable and the run still ends as uncertain. */
  lemma FirstAnswerIsForgotten(g: Plan, budget: Budget, r: Result)
    requires ValidGraph(g) && NodeOf(g, g.entry).kind == Verifier(true) && NodeOf(g, g.entry).budget.None?
    requires budget.maxExecutorCalls >= 1 && Fits(Verifier(true), r) && !r.Awaiting?
    ensures var ls := [Enter, Start(g.entry), Answer(r)] + [Persist, Crash, Recover];
      && IsRun(g, Init(g, budget), ls)
      && var s := Exec(g, Init(g, budget), ls);
         g.entry in s.top.rows && s.top.rows[g.entry].result == Some(r) && s.ending == Some(UNCERTAIN)
  {
    hide ValidGraph, InitBranches, Fresh, IsRun, Exec, Enabled, Apply, Sound, Fits, IsScheduled;
    var s0 := Init(g, budget);
    EnterIsEnabled(g, s0);
    var s1 := Apply(g, s0, Enter);
    FirstNode(g, s1);
    StartIsThis(g, s1, g.entry);
    var s2 := Apply(g, s1, Start(g.entry));
    AnswerIsThis(g, s2, r);
    ThreeSteps(g, s0, Enter, Start(g.entry), Answer(r));
    var ls := [Enter, Start(g.entry), Answer(r)];
    InitIsSound(g, budget);
    RunKeepsSound(g, s0, ls);
    SynchronousAnswerIsForgotten(g, Exec(g, s0, ls));
    RunsChain(g, s0, ls, [Persist, Crash, Recover]);
  }

  lemma FirstNode(g: Plan, s: State)
    requires ValidGraph(g) && s.top == Fresh(g)
    ensures IsScheduled(s.top.rows, g.entry) && s.top.rows[g.entry] == FreshRow(NodeOf(g, g.entry), Ready)
  {
    hide ValidNode;
    FreshHasOneToken(g);
    SchedulerFindsTheToken(s.top, g.entry);
  }

  lemma AnswerIsThis(g: Plan, s: State, r: Result)
    requires s.pc.Calling? && s.pc.node in s.top.rows && s.top.rows[s.pc.node].node.kind.Verifier?
    requires Fits(s.top.rows[s.pc.node].node.kind, r)
    ensures Enabled(g, s, Answer(r))
    ensures Apply(g, s, Answer(r)) == s.(pc := Holding(s.pc.node, r), invoked := s.invoked + [MainAttempt(s, s.pc.node)])
  {
    hide Fits, MainAttempt;
  }
}
