/**
 Container progress. While no barrier is set and executors and verifiers answer, stepping a
 container settles every branch after boundedly many transactions, under every interleaving of
 the branch threads; a branch that finds the shared budget exhausted is settled as blocked.
 */
module Progress {
  import opened Options
  import opened Graphs
  import opened Results
  import opened Walks
  import opened Reports
  import opened Machine
  import opened Tokens
  import opened Effects
  import opened Admission

  // ---- sums over a finite map ----

  ghost function Total(m: map<Slot, nat>): nat
    decreases |m|
  {
    if m == map[] then 0
    else
      var k :| k in m;
      m[k] + Total(m - {k})
  }

  lemma {:induction false} TotalSplits(m: map<Slot, nat>, k: Slot)
    requires k in m
    ensures Total(m) == m[k] + Total(m - {k})
    decreases |m|
  {
    var j :| j in m && Total(m) == m[j] + Total(m - {j});
    if j != k {
      TotalSplits(m - {j}, k);
      TotalSplits(m - {k}, j);
      assert m - {j} - {k} == m - {k} - {j};
    }
  }

  lemma TotalUpdates(m: map<Slot, nat>, k: Slot, v: nat)
    requires k in m
    ensures Total(m[k := v]) == Total(m) - m[k] + v
  {
    TotalSplits(m, k);
    TotalSplits(m[k := v], k);
    assert m[k := v] - {k} == m - {k};
  }

  lemma TotalAdds(m: map<Slot, nat>, m': map<Slot, nat>, k: Slot, d: nat)
    requires m'.Keys == m.Keys && k in m && m'[k] == m[k] + d && forall j | j in m && j != k :: m'[j] == m[j]
    ensures Total(m') == Total(m) + d
  {
    TotalSplits(m, k);
    TotalSplits(m', k);
    assert m - {k} == m' - {k};
  }

  lemma {:induction false} TotalIsMonotone(m: map<Slot, nat>, m': map<Slot, nat>)
    requires m'.Keys == m.Keys && forall k | k in m :: m'[k] <= m[k]
    ensures Total(m') <= Total(m)
    decreases |m|
  {
    if m != map[] {
      var k :| k in m;
      TotalSplits(m, k);
      TotalSplits(m', k);
      TotalIsMonotone(m - {k}, m' - {k});
    }
  }

  lemma TotalDrops(m: map<Slot, nat>, m': map<Slot, nat>, k: Slot, d: nat)
    requires m'.Keys == m.Keys && k in m && m'[k] + d <= m[k] && forall j | j in m :: m'[j] <= m[j]
    ensures Total(m') + d <= Total(m)
  {
    TotalSplits(m, k);
    TotalSplits(m', k);
    TotalIsMonotone(m - {k}, m' - {k});
  }

  // ---- the measure ----

  /** What an unsettled branch still owes: a running node must settle, a settled one must route. */
  ghost function Weight(b: Branch): nat {
    if !IsUnsettled(b) || !AtRow(b.walk) then 0
    else if Current(b.walk).state.InFlight? then 3
    else if Current(b.walk).state.Settled? then 2
    else 1
  }

  /** How far a thread has come on its way out, counted against the weight it will take off. */
  function Lag(t: Thread): nat {
    match t
    case Out(_) => 0
    case Entering => 2
    case Starting => 3
    case Leaving(_) => 6
    case Blocking(_) => 7
    case Querying => 12
    case Invoking => 13
    case Answered(_) => 14
  }

  ghost function LagAt(ts: map<Slot, Thread>, slot: Slot): nat { if slot in ts then Lag(ts[slot]) else 0 }

  ghost function Cell(b: Branch, lag: nat): nat { if 9 * Weight(b) >= lag then 9 * Weight(b) - lag else 0 }

  ghost function Cells(bs: map<Slot, Branch>, ts: map<Slot, Thread>, n: Id): map<Slot, nat> {
    map slot | slot in bs && slot.container == n :: Cell(bs[slot], LagAt(ts, slot))
  }

  ghost function CallsLeft(s: State): nat {
    if s.calls <= s.budget.maxExecutorCalls then s.budget.maxExecutorCalls - s.calls else 0
  }

  ghost function Turn(s: State): nat {
    match s.pc
    case Pooling(_, _) => if s.threads == map[] then 1 else 3
    case _ => 2
  }

  ghost function Measure(s: State, n: Id): nat {
    27 * CallsLeft(s) + Total(Cells(s.branches, s.threads, n)) + Turn(s)
  }

  // ---- moves of a pool ----

  predicate IsPoolMove(l: Label) { l.OpenPool? || l.ClosePool? || IsBranchMove(l) }

  /** The executors and verifiers answer. */
  predicate IsAnswering(l: Label) { !l.FailBranch? && (l.AnswerBranch? || l.PollBranch? ==> !l.result.Awaiting?) }

  ghost predicate HasBranches(bs: map<Slot, Branch>, n: Id) { exists slot :: slot in bs && slot.container == n }

  /** The container `n` is being stepped and nothing stands in the way. */
  ghost predicate IsStepping(g: Plan, s: State, n: Id) {
    && Sound(g, s) && IsGoing(s) && ThreadsAreOpen(s.threads, s.branches)
    && IsBusyAt(s.top, n) && IsContainer(s.top.rows[n].node.kind) && Limit(s.top.rows[n].node.kind) >= 1
    && HasBranches(s.branches, n)
    && (s.pc == Calling(n) || s.pc == Top || (s.pc.Pooling? && s.pc.node == n))
    && (s.pc.Pooling? && s.threads == map[] ==> UnsettledOf(s.branches, n) == {})
    && (forall slot | slot in s.threads :: IsCalm(s.threads[slot]))
  }

  /** No answer is pending and no exception is on its way. */
  predicate IsCalm(t: Thread) { (t.Answered? ==> !t.result.Awaiting?) && t != Out(true) }

  // ---- one branch thread burns ----

  ghost predicate Burns(s: State, s': State, slot: Slot) {
    && slot in s.branches && slot in s'.branches && s'.budget == s.budget
    && 27 * CallsLeft(s') + Cell(s'.branches[slot], LagAt(s'.threads, slot))
       < 27 * CallsLeft(s) + Cell(s.branches[slot], LagAt(s.threads, slot))
  }

  lemma ThreadWriteBurns(s: State, slot: Slot, t: Thread)
    requires HasThread(s, slot) && Lag(s.threads[slot]) < Lag(t) <= 9 * Weight(s.branches[slot])
    ensures Burns(s, SetThread(s, slot, t), slot)
  {
  }

  lemma BranchWriteBurns(s: State, slot: Slot, b: Branch, t: Thread)
    requires HasThread(s, slot) && Lag(s.threads[slot]) <= 9 * Weight(s.branches[slot])
    requires Lag(t) <= 9 * Weight(b)
    requires 9 * Weight(b) + Lag(s.threads[slot]) < 9 * Weight(s.branches[slot]) + Lag(t)
    ensures Burns(s, SetThread(SetBranch(s, slot, b), slot, t), slot)
  {
  }

  lemma LookBurns(s: State, slot: Slot)
    requires HasThread(s, slot) && s.threads[slot].Entering? && IsGoing(s)
    requires IsUnsettled(s.branches[slot]) && OneToken(s.branches[slot].walk)
    ensures Burns(s, SetThread(s, slot, LookAtBranch(s, slot)), slot)
  {
    hide Burns;
    ThreadWriteBurns(s, slot, LookAtBranch(s, slot));
  }

  lemma StartBurns(s: State, slot: Slot, limit: bool)
    requires HasBranchNode(s, slot) && s.threads[slot].Starting? && IsGoing(s)
    requires IsUnsettled(s.branches[slot]) && Current(s.branches[slot].walk).state.Ready?
    ensures Burns(s, CommitStart(s, slot, ChooseStart(s, slot, limit)), slot)
  {
    var c := ChooseStart(s, slot, limit);
    if c.Turned? {
      hide Burns;
      ThreadWriteBurns(s, slot, c.thread);
    } else {
      var s' := CommitStart(s, slot, c);
      assert Weight(s'.branches[slot]) == 3;
    }
  }

  lemma AnswerBurns(s: State, slot: Slot, r: Result)
    requires HasBranchNode(s, slot) && s.threads[slot].Invoking?
    requires IsUnsettled(s.branches[slot]) && Current(s.branches[slot].walk).state.InFlight?
    ensures Burns(s, SetThread(s, slot, Answered(r)).(invoked := s.invoked + [BranchAttempt(s, slot)]), slot)
  {
  }

  lemma PollBurns(s: State, slot: Slot, r: Result)
    requires HasBranchNode(s, slot) && s.threads[slot].Querying?
    requires IsUnsettled(s.branches[slot]) && Current(s.branches[slot].walk).state.InFlight?
    ensures Burns(s, PollBranchHandle(s, slot, r), slot)
  {
    hide Burns;
    var b := s.branches[slot];
    var b' := b.(walk := Polled(b.walk, NodeAt(s, slot)));
    assert Weight(b') == 3;
    BranchWriteBurns(s, slot, b', Answered(r));
  }

  lemma PersistBurns(s: State, slot: Slot, r: Result)
    requires HasBranchNode(s, slot) && s.threads[slot] == Answered(r) && !r.Awaiting? && IsGoing(s)
    requires IsUnsettled(s.branches[slot]) && Current(s.branches[slot].walk).state.InFlight?
    ensures Burns(s, PersistBranchResult(s, slot, r), slot)
  {
    var b := s.branches[slot];
    var b' := b.(walk := Settle(b.walk, NodeAt(s, slot), r));
    assert Weight(b') == 2;
  }

  lemma RouteBurns(s: State, slot: Slot, r: Result)
    requires HasBranchNode(s, slot) && s.threads[slot] == Leaving(r) && !r.Awaiting? && IsGoing(s)
    requires EdgesHaveRows(s.branches[slot])
    requires IsUnsettled(s.branches[slot]) && Current(s.branches[slot].walk).state.Settled?
    ensures Burns(s, CommitBranchRoute(s, slot, ChooseBranchRoute(s, slot, r)), slot)
  {
    hide FinishedBranchResult, EdgesHaveRows, Select;
    ChosenBranchRouteIsAllowed(s, slot, r);
    var c, b := ChooseBranchRoute(s, slot, r), s.branches[slot];
    if c.Walks? {
      var b' := b.(walk := Advance(b.walk, c.edge, c.repair));
      assert Weight(b') == 1;
    }
  }

  lemma BlockBurns(s: State, slot: Slot, r: BranchResult)
    requires HasBranchNode(s, slot) && s.threads[slot].Blocking? && IsUnsettled(s.branches[slot])
    ensures Burns(s, CloseBranch(s, slot, r), slot)
  {
    hide Burns;
    BranchWriteBurns(s, slot, Close(s.branches[slot], r), Out(false));
  }

  lemma ThreadOfSteppingBranch(g: Plan, s: State, slot: Slot)
    requires Sound(g, s) && ThreadsAreOpen(s.threads, s.branches) && slot in s.threads && !s.threads[slot].Out?
    ensures HasBranchNode(s, slot) && IsUnsettled(s.branches[slot]) && OneToken(s.branches[slot].walk)
    ensures SoundThread(s.branches[slot].walk, s.threads[slot])
    ensures s.pc.Pooling? && slot.container == s.pc.node
  {
    hide SoundWalk, SoundPc, SoundBranches, ValidPlan, SoundThread, IsLive, IsResting, KeepsRows;
    ThreadIsPlaced(s.pc, s.threads, s.branches, slot);
    UnsettledHasNode(slot, s.branches[slot]);
  }

  lemma UnsettledHasNode(slot: Slot, b: Branch)
    requires SoundBranch(slot, b) && IsUnsettled(b)
    ensures AtRow(b.walk) && OneToken(b.walk)
  {
    hide KeepsRows;
  }

  lemma BranchMoveBurns(g: Plan, s: State, l: Label)
    requires Sound(g, s) && IsGoing(s) && Enabled(g, s, l) && IsBranchMove(l) && IsAnswering(l)
    requires ThreadsAreOpen(s.threads, s.branches) && forall slot | slot in s.threads :: IsCalm(s.threads[slot])
    ensures Burns(s, Apply(g, s, l), l.slot)
  {
    hide Enabled, Apply;
    hide Sound, Burns, Fits, EdgesHaveRows, LookAtBranch, ChooseStart, CommitStart, PollBranchHandle, PersistBranchResult;
    hide ChooseBranchRoute, CommitBranchRoute, BlockedResult, CloseBranch, BranchAttempt, OneToken, SetThread;
    BranchApplies(g, s, l);
    ThreadOfSteppingBranch(g, s, l.slot);
    if l.Look? { LookBurns(s, l.slot); }
    else if l.StartBranch? { StartBurns(s, l.slot, l.limit); }
    else if l.AnswerBranch? { AnswerBurns(s, l.slot, l.result); }
    else if l.PollBranch? { PollBurns(s, l.slot, l.result); }
    else if l.PersistBranch? { PersistBurns(s, l.slot, s.threads[l.slot].result); }
    else if l.RouteBranch? { RouteBurns(s, l.slot, s.threads[l.slot].result); }
    else { BlockBurns(s, l.slot, BlockedResult(l.slot, s.threads[l.slot].uncertain)); }
  }

  // ---- a pool burns ----

  lemma BranchMoveShrinks(g: Plan, s: State, l: Label, n: Id)
    requires IsStepping(g, s, n) && Enabled(g, s, l) && IsBranchMove(l) && IsAnswering(l)
    ensures Measure(Apply(g, s, l), n) < Measure(s, n)
  {
    hide Sound, Enabled, Apply, Burns, Cell, LagAt, HasBranches, IsBusyAt;
    var s' := Apply(g, s, l);
    BranchMoveBurns(g, s, l);
    BranchMoveTouches(g, s, l);
    ThreadsAreInside(g, s);
    OneCellChanges(s, s', l.slot, n);
  }

  lemma ThreadsAreInside(g: Plan, s: State)
    requires Sound(g, s)
    ensures forall slot | slot in s.threads :: s.pc.Pooling? && slot in s.branches && slot.container == s.pc.node
  {
    hide SoundWalk, SoundPc, SoundBranches, ValidPlan, SoundBarrier, SoundThread;
  }

  lemma OneCellChanges(s: State, s': State, slot: Slot, n: Id)
    requires OnlySlot(s, s', slot) && Burns(s, s', slot) && slot in s.threads && slot.container == n
    ensures Measure(s', n) < Measure(s, n)
  {
    hide Cell;
    var m, m' := Cells(s.branches, s.threads, n), Cells(s'.branches, s'.threads, n);
    assert m' == m[slot := m'[slot]];
    TotalUpdates(m, slot, m'[slot]);
    assert s'.threads != map[] by { assert slot in s'.threads; }
    assert s.threads != map[];
  }

  lemma OpenPoolShrinks(g: Plan, s: State, n: Id, pool: set<Slot>)
    requires IsStepping(g, s, n) && Enabled(g, s, OpenPool(n, pool))
    ensures var s' := Apply(g, s, OpenPool(n, pool));
      Measure(s', n) < Measure(s, n) && (pool == {} ==> UnsettledOf(s'.branches, n) == {})
  {
    hide Sound, HasBranches, IsScheduled, SoundBranches, Cell;
    NoThreadsYet(g, s);
    var s' := Apply(g, s, OpenPool(n, pool));
    OpenCells(g, s, s'.threads, n, pool, Limit(s.top.rows[n].node.kind));
    if slot :| slot in pool { assert slot in s'.threads; }
    else { assert s'.threads == map[]; }
  }

  lemma NoThreadsYet(g: Plan, s: State)
    requires Sound(g, s) && !s.pc.Pooling?
    ensures s.threads == map[]
  {
    hide SoundWalk, SoundPc, SoundBranches, ValidPlan, SoundBarrier, SoundThreads;
    NoThreadsOutsidePools(s);
  }

  lemma OpenCells(g: Plan, s: State, ts: map<Slot, Thread>, n: Id, pool: set<Slot>, limit: nat)
    requires Sound(g, s) && limit >= 1 && IsAdmission(s.branches, n, limit, pool) && s.threads == map[]
    requires ts == map slot | slot in pool :: Entering
    ensures pool == {} ==> UnsettledOf(s.branches, n) == {}
    ensures pool == {} ==> Total(Cells(s.branches, ts, n)) == Total(Cells(s.branches, s.threads, n))
    ensures pool != {} ==> Total(Cells(s.branches, ts, n)) + 2 <= Total(Cells(s.branches, s.threads, n))
  {
    hide Sound, Weight;
    var m, m' := Cells(s.branches, s.threads, n), Cells(s.branches, ts, n);
    if pool == {} {
      EmptyPoolMeansNone(UnsettledOf(s.branches, n), limit);
      assert m' == m;
    } else {
      forall slot | slot in pool ensures slot in m && m'[slot] + 2 <= m[slot] {
        assert slot in UnsettledOf(s.branches, n);
        UnsettledWeighs(g, s, slot);
      }
      var slot :| slot in pool;
      TotalDrops(m, m', slot, 2);
    }
  }

  lemma EmptyPoolMeansNone(waiting: set<Slot>, limit: nat)
    requires limit >= 1 && 0 == (if |waiting| <= limit then |waiting| else limit)
    ensures waiting == {}
  {
  }

  lemma UnsettledWeighs(g: Plan, s: State, slot: Slot)
    requires Sound(g, s) && slot in s.branches && IsUnsettled(s.branches[slot])
    ensures Weight(s.branches[slot]) >= 1
  {
    hide SoundWalk, SoundPc, SoundThreads, ValidPlan, SoundBarrier, IsLive, IsResting, KeepsRows;
    assert SoundBranch(slot, s.branches[slot]);
  }

  lemma ClosePoolShrinks(g: Plan, s: State, n: Id)
    requires IsStepping(g, s, n) && Enabled(g, s, ClosePool)
    ensures var s' := Apply(g, s, ClosePool);
      SameTables(s, s') && s'.threads == map[] && (HasStepped(s', n) || (s'.pc == Top && Measure(s', n) < Measure(s, n)))
  {
    hide Sound, Cell, SoundBranches, IsBusyAt, Total, AfterPool, IsContainer, HasBranches, Cells, UnsettledOf, Aggregate;
    var s' := Apply(g, s, ClosePool);
    SoundHasBranches(g, s);
    AfterPoolKeepsTables(s, n, s.pc.first, IsStopRead(s, ClosePool));
    ClosedPoolMovesOn(s, n);
    OutThreadsWeighNothing(s, s', n);
  }

  /** Everything but where the threads stand. */
  ghost predicate SameTables(s: State, s': State) {
    && s'.branches == s.branches && s'.budget == s.budget && s'.calls == s.calls
    && s'.status == s.status && s'.barrier == s.barrier && s'.top == s.top
  }

  lemma SoundHasBranches(g: Plan, s: State)
    requires Sound(g, s)
    ensures SoundBranches(s.branches)
  {
    hide SoundWalk, SoundPc, SoundBranches, SoundThreads, ValidPlan, SoundBarrier;
  }

  lemma AfterPoolKeepsTables(s: State, n: Id, first: bool, stopped: bool)
    requires n in s.top.rows && !stopped
    ensures SameTables(s, AfterPool(s, n, first, stopped)) && AfterPool(s, n, first, stopped).threads == map[]
  {
    hide HasRaised, Aggregate;
  }

  lemma OutThreadsWeighNothing(s: State, s': State, n: Id)
    requires forall slot | slot in s.threads :: s.threads[slot].Out?
    requires s'.branches == s.branches && s'.threads == map[]
    ensures Cells(s'.branches, s'.threads, n) == Cells(s.branches, s.threads, n)
  {
    hide Cell;
  }

  lemma ClosedPoolMovesOn(s: State, n: Id)
    requires n in s.top.rows && s.pc.Pooling? && s.pc.node == n && s.barrier == NoBarrier && HasBranches(s.branches, n)
    requires SoundBranches(s.branches) && (s.threads == map[] ==> UnsettledOf(s.branches, n) == {})
    requires forall slot | slot in s.threads :: IsCalm(s.threads[slot])
    ensures var s' := AfterPool(s, n, s.pc.first, IsStopRead(s, ClosePool)); HasStepped(s', n) || (s'.pc == Top && s.threads != map[])
  {
    hide ResultsOf, Combine, SubgraphResult, ValidResult, SoundBranches, IsListing;
    var slot :| slot in s.branches && slot.container == n;
    assert slot.branch in BranchIdsOf(s.branches, n);
    assert !HasRaised(s.threads);
    if s.threads == map[] { ClosedBranchesAreListed(s.branches, n); }
  }

  // ---- every pool move keeps stepping, or hands the container's answer over ----

  lemma CalmStaysCalm(g: Plan, s: State, l: Label)
    requires Sound(g, s) && IsGoing(s) && Enabled(g, s, l) && IsBranchMove(l) && IsAnswering(l)
    requires ThreadsAreOpen(s.threads, s.branches) && forall slot | slot in s.threads :: IsCalm(s.threads[slot])
    requires OnlySlot(s, Apply(g, s, l), l.slot)
    ensures var s' := Apply(g, s, l); forall slot | slot in s'.threads :: IsCalm(s'.threads[slot])
  {
    hide Sound, Apply, Enabled;
    var s' := Apply(g, s, l);
    OwnThreadIsCalm(g, s, l);
    forall slot | slot in s'.threads ensures IsCalm(s'.threads[slot]) {
      if slot != l.slot { assert s'.threads[slot] == s.threads[slot]; }
    }
  }

  lemma OwnThreadIsCalm(g: Plan, s: State, l: Label)
    requires Sound(g, s) && IsGoing(s) && Enabled(g, s, l) && IsBranchMove(l) && IsAnswering(l)
    requires ThreadsAreOpen(s.threads, s.branches) && forall slot | slot in s.threads :: IsCalm(s.threads[slot])
    ensures var s' := Apply(g, s, l); l.slot in s'.threads && IsCalm(s'.threads[l.slot])
  {
    hide Enabled, Apply;
    hide Sound, Fits, Polled, Close, EdgesHaveRows, BlockedResult, BranchAttempt, OneToken;
    hide ChooseBranchRoute, ChooseStart, CommitStart, PersistBranchResult, CommitBranchRoute;
    BranchApplies(g, s, l);
    ThreadOfSteppingBranch(g, s, l.slot);
    if l.StartBranch? { StartIsCalm(s, l.slot, l.limit); }
    else if l.PersistBranch? { PersistIsCalm(s, l.slot, s.threads[l.slot].result); }
    else if l.RouteBranch? {
      ChosenBranchRouteIsAllowed(s, l.slot, s.threads[l.slot].result);
      RouteIsCalm(s, l.slot, ChooseBranchRoute(s, l.slot, s.threads[l.slot].result));
    }
  }

  lemma StartIsCalm(s: State, slot: Slot, limit: bool)
    requires HasBranchNode(s, slot) && IsGoing(s) && RowAt(s, slot).state.Ready?
    ensures var ts := CommitStart(s, slot, ChooseStart(s, slot, limit)).threads; slot in ts && IsCalm(ts[slot])
  {
    hide BeginBranch;
  }

  lemma PersistIsCalm(s: State, slot: Slot, r: Result)
    requires HasBranchNode(s, slot) && !r.Awaiting?
    ensures var ts := PersistBranchResult(s, slot, r).threads; slot in ts && IsCalm(ts[slot])
  {
    hide Settle, Checkpoint;
  }

  lemma RouteIsCalm(s: State, slot: Slot, c: BranchChoice)
    requires HasThread(s, slot)
    requires c.Walks? ==> c.edge.from in s.branches[slot].walk.rows && c.edge.to in s.branches[slot].walk.rows
    ensures var ts := CommitBranchRoute(s, slot, c).threads; slot in ts && IsCalm(ts[slot])
  {
    hide Advance, Close;
  }

  /**
   Every branch of the container is settled and its answer is in hand; or, for a nested
   container whose branch result the executor protocol cannot express, its step has raised.
   */
  ghost predicate HasStepped(s: State, n: Id) {
    && n in s.top.rows && s.threads == map[] && UnsettledOf(s.branches, n) == {}
    && match Aggregate(s.top.rows[n].node.kind, s.branches, n)
       case Nothing => false
       case Raises => s.pc == Holding(n, BOUNDARY) || s.pc == Idle
       case Yields(r) => s.pc == Holding(n, r)
  }

  lemma PoolMoveSteps(g: Plan, s: State, l: Label, n: Id)
    requires IsStepping(g, s, n) && Enabled(g, s, l) && IsPoolMove(l) && IsAnswering(l)
    requires l.OpenPool? ==> l.node == n
    ensures var s' := Apply(g, s, l);
      Sound(g, s') && (HasStepped(s', n) || (IsStepping(g, s', n) && Measure(s', n) < Measure(s, n)))
  {
    hide Sound, Measure, IsBusyAt, OnlySlot, HasBranches, SamePlans, AfterPool, IsAdmission, IsScheduled, HasStepped, ThreadsAreOpen;
    var s' := Apply(g, s, l);
    StepKeepsSound(g, s, l);
    StepKeepsSlots(g, s, l);
    SlotsKeepBranches(s.branches, s'.branches, n);
    if l.OpenPool? {
      OpenThreadsAreOpen(s.branches, n, Limit(s.top.rows[n].node.kind), l.pool);
      OpenPoolShrinks(g, s, n, l.pool);
      if l.pool != {} {
        var slot :| slot in l.pool;
        assert slot in s'.threads;
      }
    }
    else if l.ClosePool? {
      NoThreadsAreOpen(s'.branches);
      ClosePoolShrinks(g, s, n);
    }
    else {
      hide Apply, Enabled;
      BranchMoveStaysOpen(g, s, l);
      BranchMoveShrinks(g, s, l, n);
      BranchMoveTouches(g, s, l);
      CalmStaysCalm(g, s, l);
      SlotMoveKeepsStep(s, s', l.slot);
    }
  }

  lemma SlotMoveKeepsStep(s: State, s': State, slot: Slot)
    requires OnlySlot(s, s', slot) && slot in s.threads
    ensures IsGoing(s) ==> IsGoing(s')
    ensures s'.top == s.top && s'.pc == s.pc && s'.threads != map[]
  {
    assert slot in s'.threads;
  }

  lemma SlotsKeepBranches(bs: map<Slot, Branch>, bs': map<Slot, Branch>, n: Id)
    requires SamePlans(bs, bs')
    ensures HasBranches(bs, n) ==> HasBranches(bs', n)
  {
    if HasBranches(bs, n) {
      var slot :| slot in bs && slot.container == n;
      assert slot in bs';
    }
  }

  lemma NothingAfterStep(g: Plan, s: State, l: Label, n: Id)
    requires HasStepped(s, n) && IsPoolMove(l)
    ensures !Enabled(g, s, l)
  {
    hide Aggregate, UnsettledOf, Fits, IsAdmission, EdgesHaveRows;
  }

  ghost predicate OnlySteps(ls: seq<Label>, n: Id) {
    forall l | l in ls :: IsPoolMove(l) && IsAnswering(l) && (l.OpenPool? ==> l.node == n)
  }

  /** Under every interleaving the container is done after boundedly many transactions. */
  lemma {:induction false} ContainerSettles(g: Plan, s: State, ls: seq<Label>, n: Id)
    requires IsStepping(g, s, n) && IsRun(g, s, ls) && OnlySteps(ls, n)
    ensures |ls| <= Measure(s, n)
    ensures HasStepped(Exec(g, s, ls), n) || IsStepping(g, Exec(g, s, ls), n)
    decreases |ls|
  {
    hide IsStepping, Measure, Enabled, Apply, HasStepped, Sound;
    TurnIsPositive(s, n);
    if ls != [] {
      var s1 := Apply(g, s, ls[0]);
      PoolMoveSteps(g, s, ls[0], n);
      if HasStepped(s1, n) {
        if |ls| > 1 { NothingAfterStep(g, s1, ls[1], n); }
      } else { ContainerSettles(g, s1, ls[1..], n); }
    }
  }

  lemma TurnIsPositive(s: State, n: Id)
    ensures Measure(s, n) >= 1
  {
  }

  // ---- stepping never sticks ----

  /** The branch rows carry their position in the container. */
  ghost predicate IsOrdered(g: Plan, bs: map<Slot, Branch>) {
    forall slot | slot in bs :: IsBranchAt(g, slot, bs[slot].order)
  }

  /** The least of a set of branches: active first, then in branch order. */
  ghost function First(g: Plan, bs: map<Slot, Branch>, w: set<Slot>, n: Id): (m: Slot)
    requires w != {} && IsOrdered(g, bs) && forall slot | slot in w :: slot in bs && slot.container == n
    ensures m in w && forall slot | slot in w && slot != m :: Precedes(bs[m], bs[slot])
  {
    var x :| x in w;
    if w == {x} then x
    else
      var m := First(g, bs, w - {x}, n);
      assert bs[x].order != bs[m].order by { assert IsBranchAt(g, x, bs[x].order) && IsBranchAt(g, m, bs[m].order); }
      if Precedes(bs[m], bs[x]) then m else x
  }

  ghost function Admit(g: Plan, bs: map<Slot, Branch>, w: set<Slot>, n: Id, limit: nat): (pool: set<Slot>)
    requires IsOrdered(g, bs) && forall slot | slot in w :: slot in bs && slot.container == n
    ensures pool <= w && |pool| == (if |w| <= limit then |w| else limit)
    ensures forall a, b | a in pool && b in w && b !in pool :: Precedes(bs[a], bs[b])
    decreases limit
  {
    if limit == 0 || w == {} then {}
    else
      var m := First(g, bs, w, n);
      {m} + Admit(g, bs, w - {m}, n, limit - 1)
  }

  lemma ThreadCanMove(g: Plan, s: State, slot: Slot)
    requires Sound(g, s) && ThreadsAreOpen(s.threads, s.branches) && slot in s.threads && !s.threads[slot].Out?
    ensures exists l :: IsBranchMove(l) && IsAnswering(l) && Enabled(g, s, l)
  {
    hide Sound, Fits, EdgesHaveRows, OneToken, SoundBranch;
    ThreadOfSteppingBranch(g, s, slot);
    var t := s.threads[slot];
    if t.Invoking? || t.Querying? {
      SerialAnswer(g, s, slot);
      var r :| Fits(RowAt(s, slot).node.kind, r) && !r.Awaiting?;
      assert Enabled(g, s, if t.Invoking? then AnswerBranch(slot, r) else PollBranch(slot, r));
    } else if t.Leaving? {
      RouteBranchKeepsSound(g, s, slot);
      assert Enabled(g, s, RouteBranch(slot));
    } else {
      assert Enabled(g, s, if t.Entering? then Look(slot) else if t.Starting? then StartBranch(slot, false)
                           else if t.Answered? then PersistBranch(slot) else BlockBranch(slot));
    }
  }

  lemma SerialAnswer(g: Plan, s: State, slot: Slot)
    requires Sound(g, s) && HasBranchNode(s, slot)
    ensures exists r :: Fits(RowAt(s, slot).node.kind, r) && !r.Awaiting?
  {
    hide SoundWalk, SoundPc, SoundThreads, ValidPlan, SoundBarrier, OneToken;
    assert SoundBranch(slot, s.branches[slot]);
    var k := RowAt(s, slot).node.kind;
    assert !IsContainer(k) && !k.Join?;
    if k.Verifier? { assert Fits(k, Verified(Succeeded, false, [], None)); }
    else { assert Fits(k, Executed(Succeeded, {}, "", None)); }
  }

  lemma NextStepCanBegin(g: Plan, s: State, n: Id)
    requires IsStepping(g, s, n) && IsOrdered(g, s.branches) && !s.pc.Pooling?
    ensures exists pool :: Enabled(g, s, OpenPool(n, pool))
  {
    hide Sound, HasBranches, IsScheduled, IsOrdered, Limit, ThreadsAreOpen, Enabled;
    TokenRow(g, s);
    SchedulerFindsTheToken(s.top, n);
    var limit := Limit(s.top.rows[n].node.kind);
    var pool := Admit(g, s.branches, UnsettledOf(s.branches, n), n, limit);
    assert IsAdmission(s.branches, n, limit, pool);
    AdmittedCanOpen(g, s, n, pool);
  }

  lemma AdmittedCanOpen(g: Plan, s: State, n: Id, pool: set<Slot>)
    requires n in s.top.rows && IsContainer(s.top.rows[n].node.kind) && IsGoing(s) && s.top.rows[n].state.InFlight?
    requires s.pc == Calling(n) || (s.pc == Top && IsScheduled(s.top.rows, n))
    requires IsAdmission(s.branches, n, Limit(s.top.rows[n].node.kind), pool)
    ensures Enabled(g, s, OpenPool(n, pool))
  {
    hide IsScheduled, IsAdmission, UnsettledOf;
  }

  /** As long as the container is not done, some thread can move or the next step can begin. */
  lemma SteppingNeverSticks(g: Plan, s: State, n: Id)
    requires IsStepping(g, s, n) && IsOrdered(g, s.branches)
    ensures exists l :: IsPoolMove(l) && IsAnswering(l) && (l.OpenPool? ==> l.node == n) && Enabled(g, s, l)
  {
    hide Sound, HasBranches, IsOrdered, IsBusyAt;
    if s.pc.Pooling? {
      if slot :| slot in s.threads && !s.threads[slot].Out? {
        ThreadCanMove(g, s, slot);
        hide Enabled;
        var l :| IsBranchMove(l) && IsAnswering(l) && Enabled(g, s, l);
        assert IsPoolMove(l);
      }
      else { PoolCanClose(g, s, n); }
    } else {
      hide Enabled;
      NextStepCanBegin(g, s, n);
      var pool :| Enabled(g, s, OpenPool(n, pool));
      assert IsPoolMove(OpenPool(n, pool));
    }
  }

  lemma PoolCanClose(g: Plan, s: State, n: Id)
    requires IsStepping(g, s, n) && s.pc.Pooling? && forall slot | slot in s.threads :: s.threads[slot].Out?
    ensures Enabled(g, s, ClosePool) && IsPoolMove(ClosePool)
  {
    hide Sound, HasBranches;
  }

  /** The orders of creation are the positions, and no step changes them. */
  lemma {:induction false} OrderIsKept(g: Plan, s: State, ls: seq<Label>)
    requires Sound(g, s) && IsOrdered(g, s.branches) && IsRun(g, s, ls)
    ensures IsOrdered(g, Exec(g, s, ls).branches)
    decreases |ls|
  {
    hide Sound, Enabled, Apply;
    if ls != [] {
      StepKeepsSlots(g, s, ls[0]);
      StepKeepsSound(g, s, ls[0]);
      OrderIsKept(g, Apply(g, s, ls[0]), ls[1..]);
    }
  }

  lemma InitIsOrdered(g: Plan, budget: Budget)
    requires ValidGraph(g)
    ensures IsOrdered(g, Init(g, budget).branches)
  {
    hide ValidGraph, IsBranchAt, PlanOf;
  }

  // ---- exhaustion ----

  /** A branch thread that finds the shared call budget spent settles its branch as blocked. */
  lemma ExhaustedBranchIsBlocked(g: Plan, s: State, slot: Slot, limit: bool)
    requires Sound(g, s) && IsGoing(s) && slot in s.threads && s.threads[slot].Starting?
    requires s.calls >= s.budget.maxExecutorCalls
    ensures var ls := [StartBranch(slot, limit), BlockBranch(slot)];
      IsRun(g, s, ls) && slot in Exec(g, s, ls).branches
      && Exec(g, s, ls).branches[slot].result == Some(BlockedResult(slot, false)) && Exec(g, s, ls).calls == s.calls
  {
    hide Sound, OneToken, SoundBranch, IsRun, Exec, BlockedResult;
    ThreadHasNode(g, s, slot);
    TwoSteps(g, s, StartBranch(slot, limit), BlockBranch(slot));
  }

  // ---- a nested container's answer ----

  lemma {:induction false} JoinedDetailsAreEmptyExactlyWhen(details: seq<string>)
    ensures JoinDetails(details) == "" <==> details == [] || details == [""]
  {
    if |details| > 1 { assert |JoinDetails(details)| >= 2; }
  }

  /**
   The executor protocol can express every branch result but one: a failure whose only detail
   is the empty string. For that one the container's step raises instead of answering.
   */
  lemma NestedAnswerIsValidExactlyWhen(b: BranchResult)
    requires ValidBranchResult(b)
    ensures ValidResult(SubgraphResult(b)) <==> !(b.outcome == Failed && b.failureDetails == [""])
  {
    JoinedDetailsAreEmptyExactlyWhen(b.failureDetails);
  }

  /** Such a failure is within the verifier protocol. */
  lemma NestedAnswerCanFail(slot: Slot, w: Walk)
    ensures ValidResult(Verified(Failed, false, [""], None))
    ensures !ValidResult(SubgraphResult(FinishedBranchResult(slot, w, Verified(Failed, false, [""], None))))
  {
  }
}
