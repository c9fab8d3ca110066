/**
 Shared budget accounting. The counters of the budgets row are the number of counted attempts
 and of repair traversals recorded since the run was created, they never exceed their maxima,
 and no bounded edge is traversed more often than it allows: serially, in any interleaving of
 branch threads, and across crashes and restarts.
 */
module Budgets {
  import opened Options
  import opened Graphs
  import opened Results
  import opened Walks
  import opened Machine
  import opened Tokens
  import opened Effects

  /** What can be counted in a history. */
  datatype Measure =
    | Calls(graph: Plan)
    | Repairs
    | Pair(place: Option<Slot>, from: Id, to: Id)
    | Uses(place: Option<Slot>, edge: Edge)

  predicate Matters(m: Measure, e: Event) {
    match m
    case Calls(g) =>
      e.Began? && (e.attempt.place.Some?
                   || (e.attempt.node in Ids(g) && IsCounted(NodeOf(g, e.attempt.node).kind)))
    case Repairs => e.Routed? && e.repair
    case Pair(place, from, to) => e.Routed? && e.place == place && e.edge.from == from && e.edge.to == to
    case Uses(place, edge) => e.Routed? && e.place == place && e.edge == edge
  }

  function Tally(m: Measure, h: seq<Event>): nat {
    if h == [] then 0 else Tally(m, h[..|h| - 1]) + if Matters(m, h[|h| - 1]) then 1 else 0
  }

  lemma TallyOfOneMore(m: Measure, h: seq<Event>, e: Event)
    ensures Tally(m, h + [e]) == Tally(m, h) + if Matters(m, e) then 1 else 0
  {
    assert (h + [e])[..|h|] == h;
  }

  lemma OutcomesAreNotTallied(m: Measure, h: seq<Event>, h': seq<Event>)
    requires AddsOutcome(h, h')
    ensures Tally(m, h') == Tally(m, h)
  {
    if h' != h {
      assert h' == h + [h'[|h|]];
      TallyOfOneMore(m, h, h'[|h|]);
    }
  }

  lemma OutcomesSince(h: seq<Event>, h': seq<Event>, base: nat)
    requires AddsOutcome(h, h') && base <= |h|
    ensures base <= |h'| && AddsOutcome(h[base..], h'[base..])
  {
    if h' != h {
      assert h' == h + [h'[|h|]];
      assert h'[base..] == h[base..] + [h'[|h|]];
    }
  }

  /** The budgets row agrees with the events since the run was created. */
  ghost predicate Balanced(g: Plan, calls: nat, repairs: nat, budget: Budget, h: seq<Event>, base: nat) {
    && base <= |h|
    && calls == Tally(Calls(g), h[base..]) && calls <= budget.maxExecutorCalls
    && repairs == Tally(Repairs, h[base..]) && repairs <= budget.maxRepairIterations
  }

  /** The traversal rows of one plan agree with the whole lineage's events. */
  ghost predicate Traversed(p: Plan, counts: map<(Id, Id), nat>, place: Option<Slot>, h: seq<Event>) {
    && (forall a, b :: Count(counts, a, b) == Tally(Pair(place, a, b), h))
    && (forall e | e in p.edges && e.maxIterations.Some? :: Tally(Uses(place, e), h) <= e.maxIterations.value)
    && (forall e: Edge :: Tally(Uses(place, e), h) <= Tally(Pair(place, e.from, e.to), h))
  }

  ghost predicate BranchesTraversed(bs: map<Slot, Branch>, h: seq<Event>) {
    forall slot | slot in bs :: Traversed(bs[slot].plan, bs[slot].walk.counts, Some(slot), h)
  }

  ghost predicate Accounted(g: Plan, s: State) {
    && Balanced(g, s.calls, s.repairs, s.budget, s.history, s.base)
    && Traversed(g, s.top.counts, None, s.history)
    && BranchesTraversed(s.branches, s.history)
  }

  lemma InitIsAccounted(g: Plan, budget: Budget)
    requires ValidGraph(g)
    ensures Accounted(g, Init(g, budget))
  {
  }

  // ---- books ----

  lemma QuietKeepsBalance(g: Plan, s: State, s': State)
    requires Quiet(s, s') && Balanced(g, s.calls, s.repairs, s.budget, s.history, s.base)
    ensures Balanced(g, s'.calls, s'.repairs, s'.budget, s'.history, s'.base)
  {
    hide SameTally, SameTallies, AddsOutcome;
    OutcomesSince(s.history, s'.history, s.base);
    OutcomesAreNotTallied(Calls(g), s.history[s.base..], s'.history[s.base..]);
    OutcomesAreNotTallied(Repairs, s.history[s.base..], s'.history[s.base..]);
  }

  lemma EventBalances(
    g: Plan, calls: nat, repairs: nat, budget: Budget, h: seq<Event>, base: nat, e: Event, calls': nat, repairs': nat)
    requires Balanced(g, calls, repairs, budget, h, base)
    requires calls' == calls + (if Matters(Calls(g), e) then 1 else 0) && calls' <= budget.maxExecutorCalls
    requires repairs' == repairs + (if Matters(Repairs, e) then 1 else 0) && repairs' <= budget.maxRepairIterations
    ensures Balanced(g, calls', repairs', budget, h + [e], base)
  {
    assert (h + [e])[base..] == h[base..] + [e];
    TallyOfOneMore(Calls(g), h[base..], e);
    TallyOfOneMore(Repairs, h[base..], e);
  }

  // ---- traversals ----

  lemma QuietKeepsTraversals(p: Plan, counts: map<(Id, Id), nat>, place: Option<Slot>, h: seq<Event>, h': seq<Event>)
    requires Traversed(p, counts, place, h) && AddsOutcome(h, h')
    ensures Traversed(p, counts, place, h')
  {
    hide AddsOutcome, Tally;
    forall m: Measure ensures Tally(m, h') == Tally(m, h) { OutcomesAreNotTallied(m, h, h'); }
  }

  /** An event about another place, or about no traversal at all. */
  lemma OtherEventKeepsTraversals(p: Plan, counts: map<(Id, Id), nat>, place: Option<Slot>, h: seq<Event>, e: Event)
    requires Traversed(p, counts, place, h) && !(e.Routed? && e.place == place)
    ensures Traversed(p, counts, place, h + [e])
  {
    hide Tally;
    forall a, b ensures Tally(Pair(place, a, b), h + [e]) == Tally(Pair(place, a, b), h) {
      TallyOfOneMore(Pair(place, a, b), h, e);
    }
    forall f: Edge ensures Tally(Uses(place, f), h + [e]) == Tally(Uses(place, f), h) {
      TallyOfOneMore(Uses(place, f), h, e);
    }
  }

  lemma TraversalIsCounted(p: Plan, counts: map<(Id, Id), nat>, place: Option<Slot>, h: seq<Event>, e: Edge, repair: bool)
    requires Traversed(p, counts, place, h)
    requires e.maxIterations.Some? ==> Count(counts, e.from, e.to) < e.maxIterations.value
    ensures Traversed(p, counts[(e.from, e.to) := Count(counts, e.from, e.to) + 1], place, h + [Routed(place, e, repair)])
  {
    hide Tally;
    var counts' := counts[(e.from, e.to) := Count(counts, e.from, e.to) + 1];
    var h' := h + [Routed(place, e, repair)];
    forall a, b ensures Count(counts', a, b) == Tally(Pair(place, a, b), h') {
      TallyOfOneMore(Pair(place, a, b), h, Routed(place, e, repair));
    }
    forall f: Edge
      ensures Tally(Uses(place, f), h') == Tally(Uses(place, f), h) + (if f == e then 1 else 0)
      ensures Tally(Uses(place, f), h') <= Tally(Pair(place, f.from, f.to), h')
    {
      TallyOfOneMore(Uses(place, f), h, Routed(place, e, repair));
      TallyOfOneMore(Pair(place, f.from, f.to), h, Routed(place, e, repair));
    }
  }

  // ---- steps ----

  lemma QuietKeepsBranchTraversals(bs: map<Slot, Branch>, bs': map<Slot, Branch>, h: seq<Event>, h': seq<Event>)
    requires BranchesTraversed(bs, h) && SameTallies(bs, bs') && AddsOutcome(h, h')
    ensures BranchesTraversed(bs', h')
  {
    hide Traversed, AddsOutcome;
    forall slot | slot in bs' ensures Traversed(bs'[slot].plan, bs'[slot].walk.counts, Some(slot), h') {
      assert Traversed(bs[slot].plan, bs[slot].walk.counts, Some(slot), h);
      QuietKeepsTraversals(bs[slot].plan, bs[slot].walk.counts, Some(slot), h, h');
    }
  }

  lemma QuietKeepsAccounts(g: Plan, s: State, s': State)
    requires Accounted(g, s) && Quiet(s, s')
    ensures Accounted(g, s')
  {
    hide Balanced, Traversed, BranchesTraversed, AddsOutcome, SameTallies;
    QuietKeepsBalance(g, s, s');
    QuietKeepsTraversals(g, s.top.counts, None, s.history, s'.history);
    QuietKeepsBranchTraversals(s.branches, s'.branches, s.history, s'.history);
  }

  lemma EventKeepsBranchTraversals(bs: map<Slot, Branch>, h: seq<Event>, e: Event)
    requires BranchesTraversed(bs, h) && !(e.Routed? && e.place.Some?)
    ensures BranchesTraversed(bs, h + [e])
  {
    hide Traversed;
    forall slot | slot in bs ensures Traversed(bs[slot].plan, bs[slot].walk.counts, Some(slot), h + [e]) {
      OtherEventKeepsTraversals(bs[slot].plan, bs[slot].walk.counts, Some(slot), h, e);
    }
  }

  lemma StartIsAccounted(g: Plan, s: State, n: Id)
    requires ValidPlan(g) && KeepsRows(g, s.top) && Accounted(g, s)
    requires n in s.top.rows && !IsRefused(s, s.top.rows[n])
    ensures Accounted(g, StartAttempt(s, n))
  {
    hide Balanced, Traversed, BranchesTraversed;
    var row := s.top.rows[n];
    NodeIsUnique(g, row.node);
    var s' := StartAttempt(s, n);
    var e := Began(MainAttempt(s', n));
    assert s'.history == s.history + [e];
    BooksAreKept(g, s.calls, s.repairs, s.budget, s.history, s.base);
    EventBalances(g, s.calls, s.repairs, s.budget, s.history, s.base, e, s'.calls, s'.repairs);
    OtherEventKeepsTraversals(g, s.top.counts, None, s.history, e);
    EventKeepsBranchTraversals(s.branches, s.history, e);
  }

  lemma BooksAreKept(g: Plan, calls: nat, repairs: nat, budget: Budget, h: seq<Event>, base: nat)
    requires Balanced(g, calls, repairs, budget, h, base)
    ensures calls <= budget.maxExecutorCalls && repairs <= budget.maxRepairIterations && base <= |h|
  {
  }

  lemma RouteIsAccounted(g: Plan, s: State, e: Edge, repair: bool)
    requires Accounted(g, s) && e.from in s.top.rows && e.to in s.top.rows
    requires e.maxIterations.Some? ==> Count(s.top.counts, e.from, e.to) < e.maxIterations.value
    requires repair ==> s.repairs < s.budget.maxRepairIterations
    ensures Accounted(g, CommitRoute(s, Moves(e, repair)))
  {
    hide Balanced, Traversed, BranchesTraversed;
    var s' := CommitRoute(s, Moves(e, repair));
    BooksAreKept(g, s.calls, s.repairs, s.budget, s.history, s.base);
    EventBalances(g, s.calls, s.repairs, s.budget, s.history, s.base, Routed(None, e, repair), s'.calls, s'.repairs);
    TraversalIsCounted(g, s.top.counts, None, s.history, e, repair);
    EventKeepsBranchTraversals(s.branches, s.history, Routed(None, e, repair));
  }

  lemma BranchStartIsAccounted(g: Plan, s: State, slot: Slot)
    requires Accounted(g, s) && ValidBranchNode(s, slot) && s.calls < s.budget.maxExecutorCalls
    ensures Accounted(g, CommitStart(s, slot, Begins))
  {
    hide Balanced, Traversed;
    var s' := CommitStart(s, slot, Begins);
    var e := s'.history[|s.history|];
    assert s'.history == s.history + [e] && e.Began? && e.attempt.place == Some(slot);
    BooksAreKept(g, s.calls, s.repairs, s.budget, s.history, s.base);
    EventBalances(g, s.calls, s.repairs, s.budget, s.history, s.base, e, s'.calls, s'.repairs);
    OtherEventKeepsTraversals(g, s.top.counts, None, s.history, e);
    EventKeepsBranchTraversals(s.branches, s.history, e);
  }

  lemma BranchRouteIsAccounted(g: Plan, s: State, slot: Slot, e: Edge, repair: bool)
    requires Accounted(g, s) && slot in s.branches
    requires e.from in s.branches[slot].walk.rows && e.to in s.branches[slot].walk.rows
    requires e.maxIterations.Some? ==> Count(s.branches[slot].walk.counts, e.from, e.to) < e.maxIterations.value
    requires repair ==> s.repairs < s.budget.maxRepairIterations
    ensures Accounted(g, CommitBranchRoute(s, slot, Walks(e, repair)))
  {
    hide Balanced, Traversed;
    var s' := CommitBranchRoute(s, slot, Walks(e, repair));
    var b, routed := s.branches[slot], Routed(Some(slot), e, repair);
    BooksAreKept(g, s.calls, s.repairs, s.budget, s.history, s.base);
    EventBalances(g, s.calls, s.repairs, s.budget, s.history, s.base, routed, s'.calls, s'.repairs);
    OtherEventKeepsTraversals(g, s.top.counts, None, s.history, routed);
    forall other | other in s.branches
      ensures Traversed(s'.branches[other].plan, s'.branches[other].walk.counts, Some(other), s'.history)
    {
      assert Traversed(s.branches[other].plan, s.branches[other].walk.counts, Some(other), s.history);
      if other != slot {
        OtherEventKeepsTraversals(s.branches[other].plan, s.branches[other].walk.counts, Some(other), s.history, routed);
      } else {
        TraversalIsCounted(b.plan, b.walk.counts, Some(slot), s.history, e, repair);
      }
    }
  }

  /** Restarting opens new books and inherits the traversals. */
  lemma RestartIsAccounted(g: Plan, s: State, budget: Budget)
    requires Accounted(g, s)
    ensures Accounted(g, RestartFrom(s, budget))
  {
    hide Traversed;
  }

  lemma SoundHasRows(g: Plan, s: State)
    requires Sound(g, s)
    ensures ValidPlan(g) && KeepsRows(g, s.top)
  {
    hide ValidPlan, KeepsRows, OneToken, SoundBranches, SoundThreads;
  }

  lemma CountingStepKeepsAccounts(g: Plan, s: State, l: Label)
    requires Sound(g, s) && Accounted(g, s) && Enabled(g, s, l) && IsCounting(l)
    ensures Accounted(g, Apply(g, s, l))
  {
    hide Sound, Accounted, Quiet, StartAttempt, CommitRoute, CommitStart, CommitBranchRoute, RestartFrom;
    hide ChooseRoute, ChooseBranchRoute, EdgesHaveRows, ValidRoute, KeepsRows, ValidPlan, IsRefused, ChooseStart;
    if l.Restart? {
      RestartIsAccounted(g, s, l.budget);
    } else if l.Start? {
      SoundHasRows(g, s);
      StartIsAccounted(g, s, l.node);
    } else if l.Route? {
      RouteChoices(g, s);
      ChosenRouteIsAllowed(g, s, s.pc.node);
      var c := ChooseRoute(g, s, s.pc.node);
      if c.Moves? { RouteIsAccounted(g, s, c.edge, c.repair); }
      else { QuietKeepsAccounts(g, s, CommitRoute(s, c)); }
    } else if l.RouteBranch? {
      BranchRouteChoices(g, s, l.slot);
      ChosenBranchRouteIsAllowed(s, l.slot, s.threads[l.slot].result);
      var c := ChooseBranchRoute(s, l.slot, s.threads[l.slot].result);
      if c.Walks? { BranchRouteIsAccounted(g, s, l.slot, c.edge, c.repair); }
      else { QuietKeepsAccounts(g, s, CommitBranchRoute(s, l.slot, c)); }
    } else {
      BranchStartChoices(s, l.slot, l.limit);
      var c := ChooseStart(s, l.slot, l.limit);
      if c.Begins? {
        BegunIsAllowed(s, l.slot, l.limit);
        BranchStartIsAccounted(g, s, l.slot);
      } else { QuietKeepsAccounts(g, s, CommitStart(s, l.slot, c)); }
    }
  }

  lemma BegunIsAllowed(s: State, slot: Slot, limit: bool)
    requires ValidBranchNode(s, slot) && ChooseStart(s, slot, limit).Begins?
    ensures s.calls < s.budget.maxExecutorCalls && IsGoing(s) && RowAt(s, slot).state.Ready?
  {
  }

  lemma StepKeepsAccounts(g: Plan, s: State, l: Label)
    requires Sound(g, s) && Accounted(g, s) && Enabled(g, s, l)
    ensures Accounted(g, Apply(g, s, l))
  {
    hide Sound, Enabled, Apply, Accounted, Quiet;
    if IsCounting(l) { CountingStepKeepsAccounts(g, s, l); }
    else {
      StepIsQuiet(g, s, l);
      QuietKeepsAccounts(g, s, Apply(g, s, l));
    }
  }

  lemma {:induction false} RunKeepsAccounts(g: Plan, s: State, ls: seq<Label>)
    requires Sound(g, s) && Accounted(g, s) && IsRun(g, s, ls)
    ensures Accounted(g, Exec(g, s, ls))
    decreases |ls|
  {
    hide Sound, Accounted, Enabled, Apply;
    if ls != [] {
      StepKeepsAccounts(g, s, ls[0]);
      StepKeepsSound(g, s, ls[0]);
      RunKeepsAccounts(g, Apply(g, s, ls[0]), ls[1..]);
    }
  }

  // ---- main results ----

  lemma ReachableIsAccounted(g: Plan, budget: Budget, s: State)
    requires Reachable(g, budget, s)
    ensures Accounted(g, s)
  {
    hide Sound, Accounted, Enabled, Apply, IsRun, Exec;
    var ls :| IsRun(g, Init(g, budget), ls) && Exec(g, Init(g, budget), ls) == s;
    InitIsSound(g, budget);
    InitIsAccounted(g, budget);
    RunKeepsAccounts(g, Init(g, budget), ls);
  }

  /** executor_calls is the number of counted attempts since creation and stays within its maximum; so do repairs. */
  lemma BudgetIsNeverExceeded(g: Plan, budget: Budget, s: State)
    requires Reachable(g, budget, s)
    ensures s.base <= |s.history|
    ensures s.calls == Tally(Calls(g), s.history[s.base..]) <= s.budget.maxExecutorCalls
    ensures s.repairs == Tally(Repairs, s.history[s.base..]) <= s.budget.maxRepairIterations
  {
    hide Reachable, Traversed, BranchesTraversed, Tally;
    ReachableIsAccounted(g, budget, s);
  }

  /** No bounded edge of the graph or of a branch is traversed more than max_iterations times. */
  lemma BoundedEdgesStayBounded(g: Plan, budget: Budget, s: State)
    requires Reachable(g, budget, s)
    ensures forall e | e in g.edges && e.maxIterations.Some? :: Tally(Uses(None, e), s.history) <= e.maxIterations.value
    ensures forall slot, e | slot in s.branches && e in s.branches[slot].plan.edges && e.maxIterations.Some? ::
      Tally(Uses(Some(slot), e), s.history) <= e.maxIterations.value
  {
    hide Reachable, Balanced, Tally;
    ReachableIsAccounted(g, budget, s);
  }
}
