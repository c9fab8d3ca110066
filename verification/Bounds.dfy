/**
 The attempt bound of compiled graphs: with V verifiers and R repair iterations a run starts at
 most (R + 1) * (V + 2) + 2 attempts, whatever the answers; hence a call budget of that size is
 never exhausted, and the serial loop stops unless polls stay pending for ever.
 */
module Bounds {
  import opened Options
  import opened Graphs
  import opened Results
  import opened Walks
  import opened Reports
  import opened Machine
  import opened Tokens
  import opened Effects
  import opened Compiler
  import opened Budgets
  import opened Delivery

  // ---- the potential ----

  /** Attempts still to come from here if no further repair is taken. */
  ghost function Ahead(ids: seq<string>, id: Id, r: Row): nat {
    (match StageOf(ids, id)
     case Inspecting => |ids| + 3
     case Writing => |ids| + 2
     case Gating(k) => if k <= |ids| then |ids| + 1 - k else 0
     case _ => 0)
    + if r.state.Ready? then 1 else 0
  }

  /** One repair costs at most a writer, all verifiers and a review. */
  function Round(ids: seq<string>): nat { |ids| + 2 }

  function AttemptBound(ids: seq<string>, maxRepairs: nat): nat { (maxRepairs + 1) * Round(ids) + 2 }

  ghost function Potential(ids: seq<string>, w: Walk, left: nat): nat
    requires AtRow(w)
  {
    Ahead(ids, w.at.value, Current(w)) + left * Round(ids)
  }

  ghost predicate Frugal(ids: seq<string>, w: Walk, calls: nat, repairs: nat, maxRepairs: nat) {
    && AtRow(w) && repairs <= maxRepairs
    && calls + Potential(ids, w, maxRepairs - repairs) <= AttemptBound(ids, maxRepairs)
  }

  lemma OneRoundLess(left: nat, round: nat)
    requires left >= 1
    ensures (left - 1) * round == left * round - round
  {
  }

  lemma AheadIsBounded(ids: seq<string>, id: Id, r: Row)
    ensures Ahead(ids, id, r) <= Round(ids) + 2
  {
  }

  lemma FreshIsFrugal(ids: seq<string>, w: Walk, maxRepairs: nat)
    requires AtRow(w)
    ensures Frugal(ids, w, 0, 0, maxRepairs)
  {
    AheadIsBounded(ids, w.at.value, Current(w));
    OneRoundLess(maxRepairs + 1, Round(ids));
  }

  // ---- the potential falls with every attempt and never rises with a route ----

  lemma StartCosts(ids: seq<string>, s: State)
    requires AtRow(s.top) && Current(s.top).state.Ready?
    ensures var s' := StartAttempt(s, s.top.at.value);
      && AtRow(s'.top) && s'.calls <= s.calls + 1 && s'.repairs == s.repairs && s'.budget == s.budget
      && forall left: nat :: Potential(ids, s'.top, left) + 1 == Potential(ids, s.top, left)
  {
    hide StageOf, Round;
  }

  lemma OtherWritesCostNothing(ids: seq<string>, s: State, n: Id, r: Result)
    requires AtRow(s.top) && s.top.at == Some(n) && Current(s.top).state.InFlight?
    ensures var s' := PersistResult(s, n, r);
      AtRow(s'.top) && forall left: nat :: Potential(ids, s'.top, left) == Potential(ids, s.top, left)
    ensures AtRow(Polled(s.top, n))
      && forall left: nat :: Potential(ids, Polled(s.top, n), left) == Potential(ids, s.top, left)
  {
    hide StageOf, Round;
  }

  lemma MoveCosts(ids: seq<string>, bound: nat, w: Walk, e: Edge, repair: bool, left: nat)
    requires IsDistinct(ids) && AtRow(w) && IsCompiledEdge(ids, bound, e)
    requires w.at == Some(e.from) && e.to in w.rows && e.to != e.from
    requires Current(w).state.Settled? && Current(w).result.Some? && repair == IsRepair(e, Current(w).result.value)
    requires e.condition.Some? ==> ConditionMatches(e.condition.value, Current(w).result.value, Current(w).attempts)
    requires repair ==> left >= 1
    ensures var w' := Advance(w, e, repair);
      AtRow(w') && Potential(ids, w', if repair then left - 1 else left) <= Potential(ids, w, left)
  {
    hide StageOf, ConditionMatches, IsCompiledEdge, IsRepair, Gate;
    EdgeStages(ids, bound, e, Current(w).result.value, Current(w).attempts);
    if repair { OneRoundLess(left, Round(ids)); }
  }

  lemma RouteCosts(ids: seq<string>, bound: nat, g: Plan, s: State)
    requires IsCompiledRun(ids, bound, g, s) && Enabled(g, s, Route)
    requires Frugal(ids, s.top, s.calls, s.repairs, s.budget.maxRepairIterations)
    ensures var s' := Apply(g, s, Route);
      && s'.calls == s.calls && s'.budget == s.budget && s.repairs <= s'.repairs <= s.budget.maxRepairIterations
      && AtRow(s'.top) && AtRow(s.top)
      && Potential(ids, s'.top, s.budget.maxRepairIterations - s'.repairs)
         <= Potential(ids, s.top, s.budget.maxRepairIterations - s.repairs)
  {
    hide Sound, CompiledGraph, ChooseRoute, ValidRoute, ConditionMatches, IsCompiledEdge, ValidPlan, Potential, Advance;
    hide FinishRun, HonorBarrier, AttemptBound, IsRepair, Quiet;
    RouteChoices(g, s);
    DoneRow(g, s);
    ChosenRouteIsAllowed(g, s, s.pc.node);
    var c := ChooseRoute(g, s, s.pc.node);
    if c.Moves? {
      OpenEdge(g, s, s.pc.node);
      EdgesOfCompiled(ids, bound, c.edge);
      EdgesAreNoLoops(g, s, c.edge);
      MoveCosts(ids, bound, s.top, c.edge, c.repair, s.budget.maxRepairIterations - s.repairs);
    } else {
      CommitLeavesTop(s, c);
      QuietHistory(s, CommitRoute(s, c));
    }
  }

  lemma StepKeepsFrugal(ids: seq<string>, bound: nat, g: Plan, s: State, l: Label)
    requires IsCompiledRun(ids, bound, g, s) && Enabled(g, s, l)
    requires Frugal(ids, s.top, s.calls, s.repairs, s.budget.maxRepairIterations)
    ensures var s' := Apply(g, s, l); Frugal(ids, s'.top, s'.calls, s'.repairs, s'.budget.maxRepairIterations)
  {
    hide Sound, CompiledGraph, Enabled, Apply, Quiet, Potential, AttemptBound;
    NoBranchMoves(g, s, l);
    if l.Route? {
      hide Frugal;
      RouteStepCosts(ids, bound, g, s);
    }
    else if l.Start? || l.Persist? || l.Poll? || l.Restart? { WritingStepKeepsFrugal(ids, bound, g, s, l); }
    else {
      StepLeavesTop(g, s, l);
      StepIsQuiet(g, s, l);
      QuietHistory(s, Apply(g, s, l));
    }
  }

  lemma RouteStepCosts(ids: seq<string>, bound: nat, g: Plan, s: State)
    requires IsCompiledRun(ids, bound, g, s) && Enabled(g, s, Route)
    requires Frugal(ids, s.top, s.calls, s.repairs, s.budget.maxRepairIterations)
    ensures var s' := Apply(g, s, Route); Frugal(ids, s'.top, s'.calls, s'.repairs, s'.budget.maxRepairIterations)
  {
    hide Sound, CompiledGraph, Enabled, Apply, Potential, AttemptBound;
    RouteCosts(ids, bound, g, s);
  }

  lemma WritingStepKeepsFrugal(ids: seq<string>, bound: nat, g: Plan, s: State, l: Label)
    requires Sound(g, s) && Enabled(g, s, l) && (l.Start? || l.Persist? || l.Poll? || l.Restart?)
    requires Frugal(ids, s.top, s.calls, s.repairs, s.budget.maxRepairIterations)
    ensures var s' := Apply(g, s, l); Frugal(ids, s'.top, s'.calls, s'.repairs, s'.budget.maxRepairIterations)
  {
    hide Sound, StartAttempt, PersistResult, IsRefused, Fits, IsScheduled, Inherit, InheritBranches, Quiet, Potential, AttemptBound, OneToken;
    hide UnsettledOf, IsAdmission, IsUnresolved, CancelBranches, IsUncertain, MainAttempt;
    TokenRow(g, s);
    if l.Start? {
      SchedulerFindsTheToken(s.top, l.node);
      StartCosts(ids, s);
    } else if l.Persist? {
      OtherWritesCostNothing(ids, s, s.pc.node, s.pc.result);
      PersistIsQuiet(s, s.pc.node, s.pc.result);
      QuietHistory(s, PersistResult(s, s.pc.node, s.pc.result));
    } else if l.Poll? {
      SchedulerFindsTheToken(s.top, l.node);
      OtherWritesCostNothing(ids, s, l.node, l.result);
    } else {
      AtInherited(s.top);
      FreshIsFrugal(ids, Inherit(s.top, false), l.budget.maxRepairIterations);
    }
  }

  lemma AtInherited(w: Walk)
    requires AtRow(w)
    ensures AtRow(Inherit(w, false))
  {
  }

  lemma {:induction false} RunKeepsFrugal(ids: seq<string>, bound: nat, g: Plan, s: State, ls: seq<Label>)
    requires IsCompiledRun(ids, bound, g, s) && IsRun(g, s, ls)
    requires Frugal(ids, s.top, s.calls, s.repairs, s.budget.maxRepairIterations)
    ensures var s' := Exec(g, s, ls);
      && IsCompiledRun(ids, bound, g, s')
      && Frugal(ids, s'.top, s'.calls, s'.repairs, s'.budget.maxRepairIterations)
    decreases |ls|
  {
    hide Sound, Frugal, CompiledGraph, Enabled, Apply;
    if ls != [] {
      StepKeepsFrugal(ids, bound, g, s, ls[0]);
      StepKeepsSound(g, s, ls[0]);
      StepKeepsSlots(g, s, ls[0]);
      RunKeepsFrugal(ids, bound, g, Apply(g, s, ls[0]), ls[1..]);
    }
  }

  lemma ReachableIsFrugal(ids: seq<string>, bound: nat, budget: Budget, s: State)
    requires IsDistinct(ids) && bound >= 1 && Reachable(CompiledGraph(ids, bound), budget, s)
    ensures IsCompiledRun(ids, bound, CompiledGraph(ids, bound), s)
    ensures Frugal(ids, s.top, s.calls, s.repairs, s.budget.maxRepairIterations)
  {
    hide Sound, Enabled, Apply, IsRun, Exec, CompiledGraph, ValidGraph, Frugal;
    var g := CompiledGraph(ids, bound);
    CompiledIsValid(ids, bound);
    var ls :| IsRun(g, Init(g, budget), ls) && Exec(g, Init(g, budget), ls) == s;
    InitIsSound(g, budget);
    CompiledHasNoSlots(ids, bound);
    TokenRow(g, Init(g, budget));
    FreshIsFrugal(ids, Init(g, budget).top, budget.maxRepairIterations);
    RunKeepsFrugal(ids, bound, g, Init(g, budget), ls);
  }

  // ---- main results ----

  /** The attempt bound, over every run of every compiled graph. */
  lemma AttemptsAreBounded(ids: seq<string>, bound: nat, budget: Budget, s: State)
    requires IsDistinct(ids) && bound >= 1 && Reachable(CompiledGraph(ids, bound), budget, s)
    ensures s.base <= |s.history|
    ensures Tally(Calls(CompiledGraph(ids, bound)), s.history[s.base..]) <= AttemptBound(ids, s.budget.maxRepairIterations)
  {
    hide Reachable, CompiledGraph, Sound, Tally;
    ReachableIsFrugal(ids, bound, budget, s);
    BudgetIsNeverExceeded(CompiledGraph(ids, bound), budget, s);
  }

  /** A call budget of that size never refuses a node. */
  lemma EnoughCallsAreNeverExhausted(ids: seq<string>, bound: nat, budget: Budget, s: State, n: Id)
    requires IsDistinct(ids) && bound >= 1 && Reachable(CompiledGraph(ids, bound), budget, s)
    requires AttemptBound(ids, s.budget.maxRepairIterations) <= s.budget.maxExecutorCalls
    requires CanSchedule(s, n) && s.top.rows[n].state.Ready?
    ensures !IsRefused(s, s.top.rows[n])
  {
    hide Reachable, CompiledGraph, Sound, AttemptBound, IsScheduled, Frugal;
    ReachableIsFrugal(ids, bound, budget, s);
    TokenRow(CompiledGraph(ids, bound), s);
    SchedulerFindsTheToken(s.top, n);
    CompiledRowHasNoBudget(ids, bound, s, n);
    FrugalLeavesACall(ids, s.top, s.calls, s.repairs, s.budget);
  }

  lemma FrugalLeavesACall(ids: seq<string>, w: Walk, calls: nat, repairs: nat, budget: Budget)
    requires Frugal(ids, w, calls, repairs, budget.maxRepairIterations)
    requires AttemptBound(ids, budget.maxRepairIterations) <= budget.maxExecutorCalls && Current(w).state.Ready?
    ensures calls < budget.maxExecutorCalls
  {
    hide AttemptBound, Round, StageOf;
  }

  /** The discovery default: one verifier, three repair iterations, twenty calls. */
  lemma DiscoveryDefaultIsNeverExhausted(v: string, bound: nat, budget: Budget, s: State, n: Id)
    requires bound >= 1 && Reachable(CompiledGraph([v], bound), budget, s)
    requires s.budget.maxRepairIterations == 3 && s.budget.maxExecutorCalls == 20
    requires CanSchedule(s, n) && s.top.rows[n].state.Ready?
    ensures AttemptBound([v], 3) == 14
    ensures !IsRefused(s, s.top.rows[n])
  {
    hide Reachable, CompiledGraph, IsScheduled, IsRefused;
    EnoughCallsAreNeverExhausted([v], bound, budget, s, n);
  }

  // ---- the loop stops ----

  /** A move of the serial loop itself: no control, no turn cut short by one, no crash, no return for lack of steps. */
  predicate IsLoopMove(l: Label) { !IsAroundMove(l) && !IsBranchMove(l) && !l.Enter? && !l.Leave? && !l.Skip? }

  predicate IsPendingPoll(l: Label) { l.Poll? && l.result.Awaiting? }

  function PendingPolls(ls: seq<Label>): nat {
    if ls == [] then 0 else (if IsPendingPoll(ls[0]) then 1 else 0) + PendingPolls(ls[1..])
  }

  /** Nobody asked the run to pause or stop. */
  predicate IsUncontrolled(s: State) { s.barrier == NoBarrier && (s.status == Running || IsOver(s)) && !s.pc.Parking? }

  /** How much of one turn of the loop is still to do. */
  ghost function Phase(s: State): nat
    requires AtRow(s.top)
  {
    match s.pc
    case Dead => 0
    case Idle => 0
    case Top =>
      if IsOver(s) then 1
      else if Current(s.top).state.InFlight? then 8
      else if Current(s.top).state.Settled? then 5
      else 2
    case Calling(_) => 10
    case Holding(_, r) => if r.Awaiting? then 9 else 7
    case Settling(_) => 6
    case Routing(_) => 4
    case Pooling(_, _) => 0
    case Parking(_) => 0
  }

  ghost function Fuel(ids: seq<string>, s: State): nat
    requires AtRow(s.top) && s.repairs <= s.budget.maxRepairIterations
  {
    16 * Potential(ids, s.top, s.budget.maxRepairIterations - s.repairs) + Phase(s)
  }

  ghost predicate IsLooping(ids: seq<string>, bound: nat, g: Plan, s: State) {
    && IsCompiledRun(ids, bound, g, s) && IsUncontrolled(s)
    && Frugal(ids, s.top, s.calls, s.repairs, s.budget.maxRepairIterations)
  }

  lemma FinishEndsUncontrolled(s: State, e: Ending)
    requires IsUncontrolled(s)
    ensures IsOver(FinishRun(s, e)) && FinishRun(s, e).barrier == NoBarrier && FinishRun(s, e).pc == s.pc
  {
  }

  /** A label that moves the loop and leaves the walk alone. */
  lemma PlaceMoveBurns(ids: seq<string>, bound: nat, g: Plan, s: State, l: Label)
    requires IsLooping(ids, bound, g, s) && Enabled(g, s, l) && IsLoopMove(l) && IsPlaceMove(l)
    ensures var s' := Apply(g, s, l);
      IsUncontrolled(s') && s'.top == s.top && AtRow(s.top) && Phase(s') < Phase(s)
  {
    hide Sound, CompiledGraph, Frugal, IsScheduled, Fits, IsRefused, FinishRun, MainAttempt, JoinResult;
    TokenRow(g, s);
    CompiledHasNoPool(ids, bound, g, s, l);
    StepLeavesTop(g, s, l);
    FinishEndsUncontrolled(s, EXHAUSTED);
    FinishEndsUncontrolled(s, UNCERTAIN);
    if l.Refuse? || l.GiveUp? { SchedulerFindsTheToken(s.top, l.node); }
  }

  /** What a move that writes the token's row burns, but for the two that a pending poll costs. */
  ghost predicate BurnsAt(ids: seq<string>, s: State, s': State, l: Label)
    requires s.repairs <= s.budget.maxRepairIterations
  {
    && IsUncontrolled(s') && AtRow(s.top) && AtRow(s'.top) && s'.repairs == s.repairs && s'.budget == s.budget
    && 16 * Potential(ids, s'.top, s.budget.maxRepairIterations - s.repairs) + Phase(s')
       < 16 * Potential(ids, s.top, s.budget.maxRepairIterations - s.repairs) + Phase(s)
         + (if IsPendingPoll(l) then 2 else 0)
  }

  lemma StartBurns(ids: seq<string>, g: Plan, s: State, n: Id)
    requires Sound(g, s) && IsUncontrolled(s) && Enabled(g, s, Start(n)) && s.repairs <= s.budget.maxRepairIterations
    ensures BurnsAt(ids, s, Apply(g, s, Start(n)), Start(n))
  {
    hide Sound, IsScheduled, IsRefused, MainAttempt, Potential, OneToken;
    TokenRow(g, s);
    SchedulerFindsTheToken(s.top, n);
    StartCosts(ids, s);
  }

  lemma PersistBurns(ids: seq<string>, g: Plan, s: State)
    requires Sound(g, s) && IsUncontrolled(s) && Enabled(g, s, Persist) && s.repairs <= s.budget.maxRepairIterations
    ensures BurnsAt(ids, s, Apply(g, s, Persist), Persist)
  {
    hide Enabled, Apply;
    hide Sound, Fits, MainAttempt, Potential, OneToken;
    WorkApplies(g, s, Persist);
    TokenRow(g, s);
    OtherWritesCostNothing(ids, s, s.pc.node, s.pc.result);
  }

  lemma PollBurns(ids: seq<string>, g: Plan, s: State, n: Id, r: Result)
    requires Sound(g, s) && IsUncontrolled(s) && Enabled(g, s, Poll(n, r)) && s.repairs <= s.budget.maxRepairIterations
    ensures BurnsAt(ids, s, Apply(g, s, Poll(n, r)), Poll(n, r))
  {
    hide Enabled, Apply;
    hide Sound, IsScheduled, Fits, Potential, OneToken;
    WorkApplies(g, s, Poll(n, r));
    TokenRow(g, s);
    SchedulerFindsTheToken(s.top, n);
    OtherWritesCostNothing(ids, s, n, r);
  }

  lemma ResumeBurns(ids: seq<string>, g: Plan, s: State, n: Id)
    requires Sound(g, s) && IsUncontrolled(s) && Enabled(g, s, Resume(n)) && s.repairs <= s.budget.maxRepairIterations
    ensures BurnsAt(ids, s, Apply(g, s, Resume(n)), Resume(n))
  {
    hide Sound, IsUnresolved, Potential, OneToken;
    TokenRow(g, s);
    SchedulerFindsTheToken(s.top, n);
  }

  lemma WalkMoveBurns(ids: seq<string>, bound: nat, g: Plan, s: State, l: Label)
    requires IsLooping(ids, bound, g, s) && Enabled(g, s, l) && (l.Start? || l.Poll? || l.Resume? || l.Persist?)
    ensures s.repairs <= s.budget.maxRepairIterations && BurnsAt(ids, s, Apply(g, s, l), l)
  {
    hide Sound, CompiledGraph, Frugal, BurnsAt, Enabled, Apply, IsUncontrolled;
    FrugalRepairs(ids, s);
    if l.Persist? { PersistBurns(ids, g, s); }
    else if l.Start? { StartBurns(ids, g, s, l.node); }
    else if l.Poll? { PollBurns(ids, g, s, l.node, l.result); }
    else { ResumeBurns(ids, g, s, l.node); }
  }

  lemma RouteBurns(ids: seq<string>, bound: nat, g: Plan, s: State)
    requires IsLooping(ids, bound, g, s) && Enabled(g, s, Route)
    ensures var s' := Apply(g, s, Route);
      && IsUncontrolled(s') && AtRow(s.top) && AtRow(s'.top) && s'.budget == s.budget
      && s.repairs <= s'.repairs <= s.budget.maxRepairIterations
      && Fuel(ids, s') < Fuel(ids, s)
  {
    hide Sound, CompiledGraph, Frugal, ValidRoute, Potential, FinishRun, ChooseRoute;
    RouteCosts(ids, bound, g, s);
    FrugalRepairs(ids, s);
    ChosenRouteIsAllowed(g, s, s.pc.node);
    var c := ChooseRoute(g, s, s.pc.node);
    UncontrolledIsNotHeld(g, s, s.pc.node);
    if c.Ends? { FinishEndsUncontrolled(s, c.ending); }
    else { MovesToReady(s, c); }
  }

  lemma FrugalRepairs(ids: seq<string>, s: State)
    requires Frugal(ids, s.top, s.calls, s.repairs, s.budget.maxRepairIterations)
    ensures AtRow(s.top) && s.repairs <= s.budget.maxRepairIterations
  {
    hide Potential, AttemptBound;
  }

  lemma UncontrolledIsNotHeld(g: Plan, s: State, n: Id)
    requires ValidRoute(g, s, n) && s.barrier == NoBarrier
    ensures !ChooseRoute(g, s, n).Held?
  {
  }

  lemma MovesToReady(s: State, c: RouteChoice)
    requires c.Moves? && c.edge.from in s.top.rows && c.edge.to in s.top.rows
    ensures var s' := CommitRoute(s, c);
      AtRow(s'.top) && Current(s'.top).state.Ready? && s'.pc == Top && s'.status == s.status && s'.barrier == s.barrier
  {
  }

  lemma LoopMoveBurns(ids: seq<string>, bound: nat, g: Plan, s: State, l: Label)
    requires IsLooping(ids, bound, g, s) && Enabled(g, s, l) && IsLoopMove(l)
    ensures var s' := Apply(g, s, l);
      && IsLooping(ids, bound, g, s') && AtRow(s.top) && AtRow(s'.top)
      && s.repairs <= s.budget.maxRepairIterations && s'.repairs <= s'.budget.maxRepairIterations
      && Fuel(ids, s') < Fuel(ids, s) + if IsPendingPoll(l) then 2 else 0
  {
    hide Sound, CompiledGraph, Frugal, Enabled, Apply, Potential, Phase, IsUncontrolled, Quiet;
    var s' := Apply(g, s, l);
    StepKeepsFrugal(ids, bound, g, s, l);
    StepKeepsSound(g, s, l);
    StepKeepsSlots(g, s, l);
    FrugalRepairs(ids, s);
    FrugalRepairs(ids, s');
    CompiledHasNoPool(ids, bound, g, s, l);
    if IsPlaceMove(l) {
      PlaceMoveBurns(ids, bound, g, s, l);
      StepIsQuiet(g, s, l);
      QuietHistory(s, s');
    }
    else if l.Route? { RouteBurns(ids, bound, g, s); }
    else { WalkMoveBurns(ids, bound, g, s, l); }
  }

  /** Left to itself the loop makes boundedly many moves, plus two for every poll that stays pending. */
  lemma {:induction false} LoopIsFinite(ids: seq<string>, bound: nat, g: Plan, s: State, ls: seq<Label>)
    requires IsLooping(ids, bound, g, s) && IsRun(g, s, ls) && forall l | l in ls :: IsLoopMove(l)
    ensures AtRow(s.top) && s.repairs <= s.budget.maxRepairIterations
    ensures |ls| <= Fuel(ids, s) + 2 * PendingPolls(ls)
    ensures IsLooping(ids, bound, g, Exec(g, s, ls))
    decreases |ls|
  {
    hide IsLooping, Enabled, Apply, Fuel;
    LoopingHasFuel(ids, bound, g, s);
    if ls != [] {
      LoopMoveBurns(ids, bound, g, s, ls[0]);
      LoopIsFinite(ids, bound, g, Apply(g, s, ls[0]), ls[1..]);
    }
  }

  lemma LoopingHasFuel(ids: seq<string>, bound: nat, g: Plan, s: State)
    requires IsLooping(ids, bound, g, s)
    ensures AtRow(s.top) && s.repairs <= s.budget.maxRepairIterations
  {
    hide Sound, CompiledGraph, Frugal;
    FrugalRepairs(ids, s);
  }

  /** A limit of the clock, of the cost or of a node. */
  predicate IsLimitHit(l: Label) { l.HitLimit? || l.HitNodeLimit? || (l.Refuse? && l.limit) }

  /** What the executor or verifier of a node could answer. */
  lemma SomeAnswerFits(k: Kind)
    requires !IsContainer(k) && !k.Join?
    ensures exists r :: Fits(k, r)
  {
    if k.Verifier? { assert Fits(k, Verified(Succeeded, false, [], None)); }
    else { assert Fits(k, Executed(Succeeded, {}, "", None)); }
  }

  /** The loop only stops because the run is over, or because the caller's process left it. */
  lemma LoopNeverSticks(ids: seq<string>, bound: nat, g: Plan, s: State)
    requires IsLooping(ids, bound, g, s)
    requires forall l | IsLoopMove(l) && !IsLimitHit(l) :: !Enabled(g, s, l)
    ensures s.pc == Idle || s.pc == Dead || (s.pc == Top && IsOver(s))
  {
    hide CompiledGraph, IsScheduled, IsUnresolved, ValidRoute, Fits, SoundBranches, SoundThreads, ValidPlan, IsRefused, Frugal;
    hide SoundWalk, Enabled;
    TokenRow(g, s);
    if s.pc.Top? && !IsOver(s) { TopNeverSticks(ids, bound, g, s); }
    else if s.pc.Calling? { CallingNeverSticks(ids, bound, g, s); }
    else if s.pc.Holding? { HoldingNeverSticks(g, s); }
    else if s.pc.Settling? {
      assert IsLoopMove(Honor);
      SettlingNeverSticks(g, s);
    }
    else if s.pc.Routing? { RoutingNeverSticks(g, s); }
    else if s.pc.Pooling? { CompiledRowHasNoBudget(ids, bound, s, s.pc.node); }
  }

  lemma TopNeverSticks(ids: seq<string>, bound: nat, g: Plan, s: State)
    requires IsLooping(ids, bound, g, s) && s.pc == Top && !IsOver(s)
    ensures exists l :: IsLoopMove(l) && !IsLimitHit(l) && Enabled(g, s, l)
  {
    hide Sound, CompiledGraph, IsScheduled, IsUnresolved, IsRefused, Frugal, Fits;
    TokenRow(g, s);
    var n := s.top.at.value;
    SchedulerFindsTheToken(s.top, n);
    CompiledRowHasNoBudget(ids, bound, s, n);
    if Current(s.top).state.Ready? {
      if IsRefused(s, s.top.rows[n]) { assert Enabled(g, s, Refuse(n, false)); }
      else { assert Enabled(g, s, Start(n)); }
    } else if Current(s.top).state.InFlight? {
      if Current(s.top).trigger.Checkpointed? {
        SomeAnswerFits(s.top.rows[n].node.kind);
        var r :| Fits(s.top.rows[n].node.kind, r);
        assert Enabled(g, s, Poll(n, r));
      } else { assert Enabled(g, s, GiveUp(n)); }
    } else {
      TokenIsDone(s.top);
      assert Enabled(g, s, Resume(n));
    }
  }

  lemma TokenIsDone(w: Walk)
    requires OneToken(w) && !Current(w).state.Ready? && !Current(w).state.InFlight?
    ensures Current(w).state.Settled?
  {
  }

  lemma CallingNeverSticks(ids: seq<string>, bound: nat, g: Plan, s: State)
    requires IsLooping(ids, bound, g, s) && s.pc.Calling?
    ensures exists l :: IsLoopMove(l) && !IsLimitHit(l) && Enabled(g, s, l)
  {
    hide CompiledGraph, IsRefused, Frugal, Fits, SoundBranches, SoundThreads, ValidPlan, SoundWalk;
    CompiledRowHasNoBudget(ids, bound, s, s.pc.node);
    SomeAnswerFits(s.top.rows[s.pc.node].node.kind);
    var r :| Fits(s.top.rows[s.pc.node].node.kind, r);
    assert Enabled(g, s, Answer(r));
  }

  lemma HoldingNeverSticks(g: Plan, s: State)
    requires Sound(g, s) && s.pc.Holding?
    ensures exists l :: IsLoopMove(l) && !IsLimitHit(l) && Enabled(g, s, l)
  {
    hide Fits, SoundBranches, SoundThreads, ValidPlan, SoundWalk;
    assert Enabled(g, s, Persist) || Enabled(g, s, Abort);
  }

  lemma SettlingNeverSticks(g: Plan, s: State)
    requires s.pc.Settling?
    ensures Enabled(g, s, Honor)
  {
  }

  lemma RoutingNeverSticks(g: Plan, s: State)
    requires Sound(g, s) && s.pc.Routing?
    ensures exists l :: IsLoopMove(l) && !IsLimitHit(l) && Enabled(g, s, l)
  {
    hide Sound, ValidRoute;
    RouteKeepsSound(g, s);
    assert Enabled(g, s, Route);
  }
}
