/**
 The structural invariant of every run: one live node per walk, at the place the run or the
 branch points to, and every thread standing where its row says. Kept by every label, so by
 controls, crashes, recovery and restarts as well.
 */
module Tokens {
  import opened Options
  import opened Graphs
  import opened Results
  import opened Walks
  import opened Reports
  import opened Machine
  import Ordering

  /** The walk has the plan's rows and one token. */
  ghost predicate SoundWalk(p: Plan, w: Walk) { KeepsRows(p, w) && OneToken(w) }

  ghost predicate SoundBranch(slot: Slot, b: Branch) {
    && ValidSubgraph(b.plan)
    && KeepsRows(b.plan, b.walk)
    && (b.walk.at.Some? ==> OneToken(b.walk))
    && (b.walk.at.None? ==> !IsUnsettled(b))
    && (match b.status
        case Closed(o) =>
          && b.result.Some? && b.result.value.outcome == o
          && b.result.value.branchId == slot.branch && ValidBranchResult(b.result.value)
        case _ => true)
  }

  ghost predicate SoundBranches(bs: map<Slot, Branch>) {
    forall slot | slot in bs :: SoundBranch(slot, bs[slot])
  }

  /** The run's token is a running node `n`. */
  ghost predicate IsBusyAt(w: Walk, n: Id) { w.at == Some(n) && n in w.rows && w.rows[n].state.InFlight? }

  /** The run's token is node `n`, done and not yet routed. */
  ghost predicate IsDoneAt(w: Walk, n: Id) { w.at == Some(n) && n in w.rows && w.rows[n].state.Settled? }

  ghost predicate SoundPc(w: Walk, pc: Pc) {
    match pc
    case Calling(n) => IsBusyAt(w, n)
    case Holding(n, r) => IsBusyAt(w, n) && Fits(w.rows[n].node.kind, r)
    case Settling(n) => IsDoneAt(w, n)
    case Routing(n) => IsDoneAt(w, n)
    case Pooling(n, _) => IsBusyAt(w, n) && IsContainer(w.rows[n].node.kind)
    case _ => true
  }

  ghost predicate SoundThread(w: Walk, t: Thread) {
    match t
    case Entering => true
    case Out(_) => true
    case Blocking(_) => OneToken(w)
    case Starting => OneToken(w) && Current(w).state.Ready?
    case Invoking => OneToken(w) && Current(w).state.InFlight?
    case Querying => OneToken(w) && Current(w).state.InFlight? && Current(w).trigger.Checkpointed?
    case Answered(r) => OneToken(w) && Current(w).state.InFlight? && Fits(Current(w).node.kind, r)
    case Leaving(r) => OneToken(w) && Current(w).state.Settled? && Current(w).result == Some(r)
  }

  ghost predicate SoundThreads(pc: Pc, ts: map<Slot, Thread>, bs: map<Slot, Branch>) {
    forall slot | slot in ts ::
      pc.Pooling? && slot in bs && slot.container == pc.node && SoundThread(bs[slot].walk, ts[slot])
  }

  /** The loop is busy with a node. */
  predicate IsAtWork(pc: Pc) { pc.Calling? || pc.Holding? || pc.Settling? || pc.Routing? || pc.Pooling? }

  /**
   Status and barrier go together, but for a pause that was stored late: it may find any barrier.
   `quiescing` under the cancel barrier is inside one label.
   */
  predicate SoundBarrier(status: RunStatus, barrier: Barrier) {
    match status
    case Running => barrier == NoBarrier
    case PauseRequested => barrier == PauseBarrier
    case Paused => barrier != CancelBarrier
    case Quiescing => barrier == InterruptBarrier
    case Terminal(_) => barrier == NoBarrier
  }

  ghost predicate Sound(g: Plan, s: State) {
    && ValidPlan(g)
    && SoundWalk(g, s.top)
    && SoundPc(s.top, s.pc)
    && SoundBranches(s.branches)
    && SoundThreads(s.pc, s.threads, s.branches)
    && SoundBarrier(s.status, s.barrier)
    && (s.status == Paused ==> !IsAtWork(s.pc))
  }

  lemma InitIsSound(g: Plan, budget: Budget)
    requires ValidGraph(g)
    ensures Sound(g, Init(g, budget))
  {
    FreshHasOneToken(g);
    var bs := Init(g, budget).branches;
    forall slot | slot in bs ensures SoundBranch(slot, bs[slot]) {
      PlanOfIsValid(g, slot);
      FreshHasOneToken(PlanOf(g, slot));
    }
  }

  // ---- what the scheduler's queries return ----

  /** The run's own queries find the token and nothing else. */
  lemma SchedulerFindsTheToken(w: Walk, n: Id)
    requires OneToken(w)
    ensures IsScheduled(w.rows, n) <==> w.at == Some(n) && (Current(w).state.Ready? || Current(w).state.InFlight?)
    ensures IsUnresolved(w.rows, n) <==> w.at == Some(n) && Current(w).state.Settled?
  {
    forall m | m in w.rows && m != w.at.value
      ensures !w.rows[m].state.Ready? && !w.rows[m].state.InFlight? && !IsUnrouted(w.rows[m])
    {
      assert IsResting(w.rows[m]);
    }
  }

  // ---- aggregation ----

  lemma {:induction false} DetailsOfAFailure(rs: seq<BranchResult>, i: nat)
    requires i < |rs| && rs[i].failureDetails != []
    ensures AllDetails(rs) != []
  {
    if i == 0 {
      assert |Prefixed(rs[0].branchId, rs[0].failureDetails)| > 0;
    } else {
      DetailsOfAFailure(rs[1..], i - 1);
    }
  }

  ghost predicate IsListing(rs: seq<BranchResult>) {
    && rs != []
    && (forall r | r in rs :: ValidBranchResult(r))
    && (forall i, j | 0 <= i < j < |rs| :: Ordering.Less(rs[i].branchId, rs[j].branchId))
  }

  /** The combination always passes the validator of ParallelResult. */
  lemma CombineIsValid(n: Id, rs: seq<BranchResult>)
    requires IsListing(rs)
    ensures ValidParallelResult(Combine(n, rs)) && ValidResult(Joined(Combine(n, rs)))
  {
    var p := Combine(n, rs);
    var r :| r in rs && r.outcome == p.outcome;
    if p.outcome == Failed {
      var i :| 0 <= i < |rs| && rs[i] == r;
      assert ValidBranchResult(r);
      DetailsOfAFailure(rs, i);
    }
  }

  ghost predicate AllClosed(bs: map<Slot, Branch>, n: Id) {
    && BranchIdsOf(bs, n) != {}
    && forall slot | slot in bs && slot.container == n :: bs[slot].result.Some?
  }

  lemma ResultsAreListed(bs: map<Slot, Branch>, n: Id)
    requires AllClosed(bs, n)
    requires forall slot | slot in bs && slot.container == n ::
               bs[slot].result.value.branchId == slot.branch && ValidBranchResult(bs[slot].result.value)
    ensures IsListing(ResultsOf(bs, n))
  {
    var ids := Ordering.Ascending(BranchIdsOf(bs, n));
    var rs := ResultsOf(bs, n);
    assert |rs| == |ids| == |BranchIdsOf(bs, n)|;
    forall i | 0 <= i < |rs| ensures rs[i].branchId == ids[i] && ValidBranchResult(rs[i]) {
      assert ids[i] in BranchIdsOf(bs, n);
      assert Slot(n, ids[i]) in bs;
    }
  }

  lemma ClosedBranchesAreListed(bs: map<Slot, Branch>, n: Id)
    requires SoundBranches(bs) && UnsettledOf(bs, n) == {} && BranchIdsOf(bs, n) != {}
    ensures AllClosed(bs, n) && IsListing(ResultsOf(bs, n))
  {
    forall slot | slot in bs && slot.container == n
      ensures bs[slot].result.Some?
      ensures bs[slot].result.value.branchId == slot.branch && ValidBranchResult(bs[slot].result.value)
    {
      assert slot !in UnsettledOf(bs, n);
      assert SoundBranch(slot, bs[slot]);
    }
    ResultsAreListed(bs, n);
  }

  lemma AggregateFits(k: Kind, bs: map<Slot, Branch>, n: Id)
    requires SoundBranches(bs) && IsContainer(k)
    ensures Aggregate(k, bs, n).Yields? ==> Fits(k, Aggregate(k, bs, n).result)
  {
    hide ResultsOf, Combine, ValidResult, SoundBranches;
    if BranchIdsOf(bs, n) != {} && UnsettledOf(bs, n) == {} {
      ClosedBranchesAreListed(bs, n);
      CombineIsValid(n, ResultsOf(bs, n));
    }
  }

  // ---- the serial loop keeps it ----

  lemma CancelKeepsBranches(bs: map<Slot, Branch>, includeActive: bool)
    requires SoundBranches(bs)
    ensures SoundBranches(CancelBranches(bs, includeActive))
  {
    hide SoundBranch, CancelBranch;
    var bs' := CancelBranches(bs, includeActive);
    forall slot | slot in bs' ensures SoundBranch(slot, bs'[slot]) { CancelledBranchIsSound(slot, bs[slot], includeActive); }
  }

  lemma CancelledBranchIsSound(slot: Slot, b: Branch, includeActive: bool)
    requires SoundBranch(slot, b)
    ensures SoundBranch(slot, CancelBranch(slot, b, includeActive))
  {
    hide ValidSubgraph, KeepsRows, OneToken;
  }

  lemma CancelKeepsThreads(pc: Pc, ts: map<Slot, Thread>, bs: map<Slot, Branch>, includeActive: bool)
    requires SoundThreads(pc, ts, bs)
    ensures SoundThreads(pc, ts, CancelBranches(bs, includeActive))
  {
    hide SoundThread;
  }

  lemma NoThreadsAreSound(pc: Pc, bs: map<Slot, Branch>)
    ensures SoundThreads(pc, map[], bs)
  {
  }

  lemma NoThreadsOutsidePools(s: State)
    requires SoundThreads(s.pc, s.threads, s.branches) && !s.pc.Pooling?
    ensures s.threads == map[]
  {
    hide SoundThread;
  }

  lemma StartKeepsWalk(g: Plan, s: State, n: Id)
    requires SoundWalk(g, s.top) && s.top.at == Some(n) && Current(s.top).state.Ready?
    ensures var s' := StartAttempt(s, n); SoundWalk(g, s'.top) && SoundPc(s'.top, s'.pc)
  {
    BeginKeepsToken(g, s.top);
  }

  lemma PersistKeepsWalk(g: Plan, s: State)
    requires SoundWalk(g, s.top) && s.pc.Holding? && SoundPc(s.top, s.pc)
    ensures s.pc.node in s.top.rows
    ensures var s' := PersistResult(s, s.pc.node, s.pc.result); SoundWalk(g, s'.top) && SoundPc(s'.top, s'.pc)
  {
    hide OneToken, KeepsRows;
    if s.pc.result.Awaiting? { CheckpointKeepsToken(g, s.top, s.pc.result.externalHandle); }
    else { SettleKeepsToken(g, s.top, s.pc.result); }
  }

  lemma DoneNodeCanRoute(g: Plan, s: State, n: Id)
    requires ValidPlan(g) && SoundWalk(g, s.top) && IsDoneAt(s.top, n)
    ensures ValidRoute(g, s, n)
  {
    forall e | e in g.edges ensures e.from in s.top.rows && e.to in s.top.rows { assert ValidEdge(g, e); }
  }

  lemma ChosenEdgeLeavesTheToken(g: Plan, s: State, n: Id)
    requires ValidRoute(g, s, n)
    ensures var c := ChooseRoute(g, s, n);
      c.Moves? ==> c.edge in g.edges && c.edge.from == n && s.barrier == NoBarrier
  {
  }

  lemma FinishKeepsBarrier(s: State, e: Ending)
    requires SoundBarrier(s.status, s.barrier)
    ensures var s' := FinishRun(s, e); SoundBarrier(s'.status, s'.barrier) && IsOver(s')
  {
  }

  lemma CommitKeepsBarrier(s: State, c: RouteChoice)
    requires SoundBarrier(s.status, s.barrier)
    requires c.Moves? ==> c.edge.from in s.top.rows && c.edge.to in s.top.rows
    ensures var s' := CommitRoute(s, c);
      SoundBarrier(s'.status, s'.barrier) && (s'.status == Paused ==> s.status == Paused && !IsAtWork(s'.pc))
  {
    hide Advance, FinishRun, SoundBarrier;
    FinishKeepsBarrier(s, INTERRUPTED);
    if c.Ends? { FinishKeepsBarrier(s, c.ending); }
  }

  lemma RouteKeepsSound(g: Plan, s: State)
    requires Sound(g, s) && s.pc.Routing?
    ensures ValidRoute(g, s, s.pc.node) && Sound(g, CommitRoute(s, ChooseRoute(g, s, s.pc.node)))
  {
    hide KeepsRows, OneToken, SoundBranches, SoundThreads, ValidPlan, SoundBarrier, ValidRoute, ChooseRoute, Advance;
    DoneNodeCanRoute(g, s, s.pc.node);
    ChosenEdgeLeavesTheToken(g, s, s.pc.node);
    var c := ChooseRoute(g, s, s.pc.node);
    var s' := CommitRoute(s, c);
    CommitKeepsBarrier(s, c);
    if c.Moves? { AdvanceKeepsToken(g, s.top, c.edge, c.repair); }
    NoThreadsOutsidePools(s);
    NoThreadsAreSound(s'.pc, s.branches);
  }

  lemma JoinFits(s: State, n: Id)
    requires OneToken(s.top) && n in s.top.rows && s.top.rows[n].node.kind.Join?
    ensures Fits(s.top.rows[n].node.kind, JoinResult(s, n))
  {
    var source := s.top.rows[n].node.kind.parallelNodeId;
    if source in s.top.rows && s.top.rows[source].result.Some? {
      assert source == s.top.at.value || IsResting(s.top.rows[source]);
    }
  }

  /** Ending the run moves nothing. */
  lemma FinishKeepsSound(g: Plan, s: State, e: Ending, pc: Pc)
    requires Sound(g, s) && SoundPc(s.top, pc) && (pc == s.pc || !s.pc.Pooling?)
    ensures Sound(g, FinishRun(s, e).(pc := pc))
  {
    hide SoundWalk, SoundPc, SoundBranches, SoundThreads, ValidPlan, SoundBarrier;
    FinishKeepsBarrier(s, e);
    if !s.pc.Pooling? { NoThreadsOutsidePools(s); }
    NoThreadsAreSound(pc, s.branches);
  }

  // ---- branch threads keep it ----

  lemma SetBranchKeepsBranches(bs: map<Slot, Branch>, slot: Slot, b: Branch)
    requires SoundBranches(bs) && SoundBranch(slot, b)
    ensures SoundBranches(bs[slot := b])
  {
    hide SoundBranch;
  }

  lemma SetBranchKeepsThreads(
    pc: Pc, ts: map<Slot, Thread>, bs: map<Slot, Branch>, slot: Slot, b: Branch, t: Thread)
    requires SoundThreads(pc, ts, bs) && slot in ts && SoundThread(b.walk, t)
    ensures SoundThreads(pc, ts[slot := t], bs[slot := b])
  {
    hide SoundThread;
  }

  /** A thread rewrites its own branch and moves on. */
  lemma BranchWriteKeepsSound(g: Plan, s: State, slot: Slot, b: Branch, t: Thread)
    requires Sound(g, s) && slot in s.threads && SoundBranch(slot, b) && SoundThread(b.walk, t)
    ensures Sound(g, SetThread(SetBranch(s, slot, b), slot, t))
  {
    hide SoundWalk, SoundPc, SoundBranches, SoundThreads, ValidPlan, SoundBarrier, SoundBranch, SoundThread;
    SetBranchKeepsBranches(s.branches, slot, b);
    SetBranchKeepsThreads(s.pc, s.threads, s.branches, slot, b, t);
  }

  lemma ThreadIsPlaced(pc: Pc, ts: map<Slot, Thread>, bs: map<Slot, Branch>, slot: Slot)
    requires SoundThreads(pc, ts, bs) && SoundBranches(bs) && slot in ts
    ensures slot in bs && SoundThread(bs[slot].walk, ts[slot]) && SoundBranch(slot, bs[slot])
  {
    hide SoundThread, SoundBranch;
  }

  lemma ThreadWriteKeepsThreads(pc: Pc, ts: map<Slot, Thread>, bs: map<Slot, Branch>, slot: Slot, t: Thread)
    requires SoundThreads(pc, ts, bs) && slot in ts && slot in bs && SoundThread(bs[slot].walk, t)
    ensures SoundThreads(pc, ts[slot := t], bs)
  {
    hide SoundThread;
  }

  lemma ThreadWriteKeepsSound(g: Plan, s: State, slot: Slot, t: Thread)
    requires Sound(g, s) && HasThread(s, slot) && SoundThread(s.branches[slot].walk, t)
    ensures Sound(g, SetThread(s, slot, t))
  {
    hide SoundWalk, SoundPc, SoundBranches, SoundThreads, ValidPlan, SoundBarrier, SoundThread;
    ThreadWriteKeepsThreads(s.pc, s.threads, s.branches, slot, t);
  }

  /** Every thread that is neither entering nor out stands on the token of its branch. */
  lemma ThreadHasNode(g: Plan, s: State, slot: Slot)
    requires Sound(g, s) && slot in s.threads && !s.threads[slot].Entering? && !s.threads[slot].Out?
    ensures HasBranchNode(s, slot) && OneToken(s.branches[slot].walk)
    ensures SoundThread(s.branches[slot].walk, s.threads[slot]) && SoundBranch(slot, s.branches[slot])
  {
    hide SoundWalk, SoundPc, SoundBranches, SoundThreads, ValidPlan, SoundBarrier, SoundBranch;
    ThreadIsPlaced(s.pc, s.threads, s.branches, slot);
  }

  lemma LookFits(s: State, slot: Slot)
    requires slot in s.branches && (s.branches[slot].walk.at.Some? ==> OneToken(s.branches[slot].walk))
    ensures SoundThread(s.branches[slot].walk, LookAtBranch(s, slot))
  {
  }

  lemma LookKeepsSound(g: Plan, s: State, slot: Slot)
    requires Sound(g, s) && slot in s.threads && s.threads[slot].Entering?
    ensures HasThread(s, slot) && (s.branches[slot].walk.at.Some? ==> AtRow(s.branches[slot].walk))
    ensures Sound(g, SetThread(s, slot, LookAtBranch(s, slot)))
  {
    hide SoundWalk, SoundPc, SoundBranches, SoundThreads, ValidPlan, SoundBarrier, SoundThread, LookAtBranch;
    ThreadIsPlaced(s.pc, s.threads, s.branches, slot);
    LookFits(s, slot);
    ThreadWriteKeepsSound(g, s, slot, LookAtBranch(s, slot));
  }

  lemma BegunBranchIsSound(slot: Slot, b: Branch)
    requires SoundBranch(slot, b) && OneToken(b.walk) && Current(b.walk).state.Ready?
    ensures SoundBranch(slot, BeginBranch(b)) && SoundThread(BeginBranch(b).walk, Invoking)
  {
    BeginKeepsToken(b.plan, b.walk);
  }

  lemma ChosenStartFits(s: State, slot: Slot, limit: bool)
    requires ValidBranchNode(s, slot) && OneToken(s.branches[slot].walk)
    ensures match ChooseStart(s, slot, limit)
            case Turned(t) => SoundThread(s.branches[slot].walk, t)
            case Begins => IsGoing(s) && s.calls < s.budget.maxExecutorCalls
  {
  }

  lemma StartBranchKeepsSound(g: Plan, s: State, slot: Slot, limit: bool)
    requires Sound(g, s) && slot in s.threads && s.threads[slot].Starting?
    ensures HasBranchNode(s, slot) && RowAt(s, slot).state.Ready?
    ensures Sound(g, CommitStart(s, slot, ChooseStart(s, slot, limit)))
  {
    hide SoundWalk, SoundPc, SoundBranches, SoundThreads, ValidPlan, SoundBarrier, SoundBranch, ChooseStart;
    hide BeginBranch, OneToken;
    ThreadHasNode(g, s, slot);
    ChosenStartFits(s, slot, limit);
    var b := s.branches[slot];
    match ChooseStart(s, slot, limit)
    case Turned(t) => ThreadWriteKeepsSound(g, s, slot, t);
    case Begins =>
      BegunBranchIsSound(slot, b);
      BranchWriteKeepsSound(g, s, slot, BeginBranch(b), Invoking);
  }

  lemma PersistedBranchIsSound(slot: Slot, b: Branch, r: Result)
    requires SoundBranch(slot, b) && OneToken(b.walk) && Current(b.walk).state.InFlight? && Fits(Current(b.walk).node.kind, r)
    ensures r.Awaiting? ==> SoundBranch(slot, b.(walk := Checkpoint(b.walk, b.walk.at.value, r.externalHandle)))
    ensures !r.Awaiting? ==> var b' := b.(walk := Settle(b.walk, b.walk.at.value, r));
      SoundBranch(slot, b') && SoundThread(b'.walk, Leaving(r))
  {
    if r.Awaiting? { CheckpointKeepsToken(b.plan, b.walk, r.externalHandle); }
    else { SettleKeepsToken(b.plan, b.walk, r); }
  }

  lemma PersistBranchKeepsSound(g: Plan, s: State, slot: Slot)
    requires Sound(g, s) && slot in s.threads && s.threads[slot].Answered?
    ensures HasBranchNode(s, slot) && Sound(g, PersistBranchResult(s, slot, s.threads[slot].result))
  {
    hide SoundWalk, SoundPc, SoundBranches, SoundThreads, ValidPlan, SoundBarrier, SoundBranch, OneToken;
    hide Checkpoint, Settle;
    ThreadHasNode(g, s, slot);
    var b, r := s.branches[slot], s.threads[slot].result;
    PersistedBranchIsSound(slot, b, r);
    ThreadWriteKeepsSound(g, s, slot, Out(true));
    ThreadWriteKeepsSound(g, s, slot, Out(false));
    if r.Awaiting? {
      BranchWriteKeepsSound(g, s, slot, b.(walk := Checkpoint(b.walk, NodeAt(s, slot), r.externalHandle)), Out(false));
    } else {
      BranchWriteKeepsSound(g, s, slot, b.(walk := Settle(b.walk, NodeAt(s, slot), r)), Leaving(r));
    }
  }

  lemma PolledBranchIsSound(slot: Slot, b: Branch, r: Result)
    requires SoundBranch(slot, b) && OneToken(b.walk) && Current(b.walk).state.InFlight? && Fits(Current(b.walk).node.kind, r)
    ensures var b' := b.(walk := Polled(b.walk, b.walk.at.value));
      SoundBranch(slot, b') && SoundThread(b'.walk, Answered(r))
  {
    PolledKeepsToken(b.plan, b.walk);
  }

  lemma PollBranchKeepsSound(g: Plan, s: State, slot: Slot, r: Result)
    requires Sound(g, s) && slot in s.threads && s.threads[slot].Querying?
    requires slot in s.branches && AtRow(s.branches[slot].walk) && Fits(RowAt(s, slot).node.kind, r)
    ensures Sound(g, PollBranchHandle(s, slot, r))
  {
    hide SoundWalk, SoundPc, SoundBranches, SoundThreads, ValidPlan, SoundBarrier, SoundBranch, OneToken, Polled;
    ThreadHasNode(g, s, slot);
    var b := s.branches[slot];
    PolledBranchIsSound(slot, b, r);
    BranchWriteKeepsSound(g, s, slot, b.(walk := Polled(b.walk, NodeAt(s, slot))), Answered(r));
  }

  lemma ClosedBranchIsSound(slot: Slot, b: Branch, r: BranchResult)
    requires SoundBranch(slot, b) && r.branchId == slot.branch && ValidBranchResult(r)
    ensures SoundBranch(slot, Close(b, r))
  {
  }

  /** A finished branch's result passes the validator of BranchResult. */
  lemma FinishedResultIsValid(slot: Slot, w: Walk, r: Result)
    requires ValidResult(r) && !r.Awaiting? && !r.Joined?
    ensures ValidBranchResult(FinishedBranchResult(slot, w, r))
    ensures FinishedBranchResult(slot, w, r).branchId == slot.branch
  {
  }

  lemma LeavingHasEdges(slot: Slot, b: Branch, r: Result)
    requires SoundBranch(slot, b) && SoundThread(b.walk, Leaving(r))
    ensures ValidResult(r) && !r.Awaiting? && !r.Joined? && EdgesHaveRows(b)
  {
    forall e | e in b.plan.edges ensures e.from in b.walk.rows && e.to in b.walk.rows { assert ValidEdge(b.plan, e); }
    var row := Current(b.walk);
    assert row.node in b.plan.nodes;
  }

  lemma ChosenBranchRouteFits(s: State, slot: Slot, r: Result)
    requires ValidBranchNode(s, slot) && !r.Awaiting?
    ensures match ChooseBranchRoute(s, slot, r)
            case Closes(br) => br == FinishedBranchResult(slot, s.branches[slot].walk, r)
            case Walks(e, _) => e in s.branches[slot].plan.edges && e.from == NodeAt(s, slot)
            case _ => true
  {
    hide FinishedBranchResult;
  }

  lemma WalkedBranchIsSound(slot: Slot, b: Branch, e: Edge, repair: bool)
    requires SoundBranch(slot, b) && OneToken(b.walk) && Current(b.walk).state.Settled?
    requires e in b.plan.edges && e.from == b.walk.at.value
    ensures e.from in b.walk.rows && e.to in b.walk.rows
    ensures SoundBranch(slot, b.(walk := Advance(b.walk, e, repair)))
  {
    AdvanceKeepsToken(b.plan, b.walk, e, repair);
  }

  lemma RouteBranchKeepsSound(g: Plan, s: State, slot: Slot)
    requires Sound(g, s) && slot in s.threads && s.threads[slot].Leaving?
    ensures HasBranchNode(s, slot) && !s.threads[slot].result.Awaiting? && EdgesHaveRows(s.branches[slot])
    ensures Sound(g, CommitBranchRoute(s, slot, ChooseBranchRoute(s, slot, s.threads[slot].result)))
  {
    hide SoundWalk, SoundPc, SoundBranches, SoundThreads, ValidPlan, SoundBarrier, SoundBranch, OneToken;
    hide ChooseBranchRoute, FinishedBranchResult, Advance, EdgesHaveRows, ValidResult, ValidBranchResult, Close;
    ThreadHasNode(g, s, slot);
    var b, r := s.branches[slot], s.threads[slot].result;
    LeavingHasEdges(slot, b, r);
    ChosenBranchRouteFits(s, slot, r);
    match ChooseBranchRoute(s, slot, r)
    case Stays => ThreadWriteKeepsSound(g, s, slot, Out(false));
    case Blocks => ThreadWriteKeepsSound(g, s, slot, Blocking(false));
    case Closes(br) =>
      FinishedResultIsValid(slot, b.walk, r);
      ClosedBranchIsSound(slot, b, br);
      BranchWriteKeepsSound(g, s, slot, Close(b, br), Out(false));
    case Walks(e, repair) =>
      WalkedBranchIsSound(slot, b, e, repair);
      BranchWriteKeepsSound(g, s, slot, b.(walk := Advance(b.walk, e, repair)), Out(false));
  }

  lemma BlockBranchKeepsSound(g: Plan, s: State, slot: Slot)
    requires Sound(g, s) && slot in s.threads && s.threads[slot].Blocking?
    ensures HasThread(s, slot)
    ensures Sound(g, CloseBranch(s, slot, BlockedResult(slot, s.threads[slot].uncertain)))
  {
    hide SoundWalk, SoundPc, SoundBranches, SoundThreads, ValidPlan, SoundBarrier, SoundBranch, OneToken, Close;
    ThreadHasNode(g, s, slot);
    var b, r := s.branches[slot], BlockedResult(slot, s.threads[slot].uncertain);
    ClosedBranchIsSound(slot, b, r);
    BranchWriteKeepsSound(g, s, slot, Close(b, r), Out(false));
  }

  lemma OpenPoolKeepsThreads(n: Id, first: bool, bs: map<Slot, Branch>, limit: nat, pool: set<Slot>)
    requires IsAdmission(bs, n, limit, pool)
    ensures SoundThreads(Pooling(n, first), map slot | slot in pool :: Entering, bs)
  {
    forall slot | slot in pool ensures slot in bs && slot.container == n {
      assert slot in UnsettledOf(bs, n);
    }
  }

  lemma AfterPoolFits(s: State, n: Id, first: bool, stopped: bool)
    requires SoundBranches(s.branches) && SoundPc(s.top, Pooling(n, first)) && SoundBarrier(s.status, s.barrier)
    ensures var s' := AfterPool(s, n, first, stopped);
      SoundPc(s.top, s'.pc) && s'.threads == map[] && SoundBranches(s'.branches)
  {
    hide SoundBranches, Aggregate, CancelBranches, HasRaised;
    AggregateFits(s.top.rows[n].node.kind, s.branches, n);
    CancelKeepsBranches(s.branches, true);
  }

  lemma AfterPoolKeepsRun(s: State, n: Id, first: bool, stopped: bool)
    requires n in s.top.rows
    ensures var s' := AfterPool(s, n, first, stopped);
      s'.top == s.top && s'.status == s.status && s'.barrier == s.barrier && s'.sweeping == s.sweeping
  {
    hide Aggregate, CancelBranches, HasRaised;
  }

  lemma ClosePoolKeepsSound(g: Plan, s: State, stopped: bool)
    requires Sound(g, s) && s.pc.Pooling?
    ensures s.pc.node in s.top.rows && Sound(g, AfterPool(s, s.pc.node, s.pc.first, stopped))
  {
    hide SoundWalk, SoundBranches, SoundThreads, ValidPlan, SoundBarrier, AfterPool;
    AfterPoolFits(s, s.pc.node, s.pc.first, stopped);
    AfterPoolKeepsRun(s, s.pc.node, s.pc.first, stopped);
    var s' := AfterPool(s, s.pc.node, s.pc.first, stopped);
    NoThreadsAreSound(s'.pc, s'.branches);
  }

  // ---- restart ----

  lemma InheritedBranchesAreSound(bs: map<Slot, Branch>)
    requires SoundBranches(bs)
    ensures SoundBranches(InheritBranches(bs))
  {
    var bs' := InheritBranches(bs);
    forall slot | slot in bs' ensures SoundBranch(slot, bs'[slot]) {
      assert SoundBranch(slot, bs[slot]);
      InheritedBranchIsSound(slot, bs[slot]);
    }
  }

  lemma InheritedBranchIsSound(slot: Slot, b: Branch)
    requires SoundBranch(slot, b)
    ensures SoundBranch(slot, InheritBranch(b))
  {
    InheritKeepsRows(b.plan, b.walk, true);
    if b.walk.at.Some? { InheritKeepsToken(b.walk, true); }
  }

  lemma RestartKeepsSound(g: Plan, s: State, budget: Budget)
    requires Sound(g, s)
    ensures Sound(g, RestartFrom(s, budget))
  {
    hide SoundPc, SoundBranches, SoundThreads, ValidPlan, SoundBarrier, OneToken, KeepsRows, Inherit, InheritBranches;
    InheritKeepsRows(g, s.top, false);
    InheritKeepsToken(s.top, false);
    InheritedBranchesAreSound(s.branches);
    FreshProcessIsSound(g, RestartFrom(s, budget));
  }

  lemma FreshProcessIsSound(g: Plan, s: State)
    requires ValidPlan(g) && SoundWalk(g, s.top) && SoundBranches(s.branches)
    requires s.pc == Idle && s.threads == map[] && s.status == Running && s.barrier == NoBarrier
    ensures Sound(g, s)
  {
    hide SoundWalk, SoundBranches, ValidPlan;
  }

  // ---- every label, hence every run ----

  lemma CancelKeepsSound(g: Plan, s: State, includeActive: bool)
    requires Sound(g, s)
    ensures Sound(g, s.(branches := CancelBranches(s.branches, includeActive)))
  {
    hide SoundWalk, SoundPc, SoundBranches, SoundThreads, ValidPlan, SoundBarrier, CancelBranches;
    CancelKeepsBranches(s.branches, includeActive);
    CancelKeepsThreads(s.pc, s.threads, s.branches, includeActive);
  }

  lemma CancelRunKeepsSound(g: Plan, s: State)
    requires Sound(g, s) && !IsOver(s)
    ensures Sound(g, FinishRun(s.(branches := CancelBranches(s.branches, true)), CANCELLED))
  {
    hide SoundWalk, SoundPc, SoundBranches, SoundThreads, ValidPlan, CancelBranches;
    CancelKeepsBranches(s.branches, true);
    CancelKeepsThreads(s.pc, s.threads, s.branches, true);
  }

  lemma ControlKeepsSound(g: Plan, s: State, a: Action)
    requires Sound(g, s)
    ensures Sound(g, ApplyControl(s, a))
  {
    hide SoundWalk, SoundPc, SoundBranches, SoundThreads, ValidPlan, SoundBarrier;
    ControlKeepsBarrier(s, a);
  }

  lemma ControlKeepsBarrier(s: State, a: Action)
    requires SoundBarrier(s.status, s.barrier)
    ensures var s' := ApplyControl(s, a);
      SoundBarrier(s'.status, s'.barrier) && (s'.status == Paused ==> s.status == Paused)
  {
  }

  /** A label that only moves the serial loop to another place. */
  lemma PlaceKeepsSound(g: Plan, s: State, s': State)
    requires Sound(g, s) && !s.pc.Pooling?
    requires s'.top == s.top && s'.branches == s.branches && s'.threads == s.threads
    requires SoundBarrier(s'.status, s'.barrier) && (s'.status == Paused ==> !IsAtWork(s'.pc))
    requires SoundPc(s'.top, s'.pc)
    ensures Sound(g, s')
  {
    hide SoundWalk, SoundPc, SoundBranches, SoundThreads, ValidPlan, SoundBarrier;
    NoThreadsOutsidePools(s);
    NoThreadsAreSound(s'.pc, s'.branches);
  }

  /** A label that rewrites the run's own walk. */
  lemma WalkKeepsSound(g: Plan, s: State, s': State)
    requires Sound(g, s) && !s.pc.Pooling?
    requires s'.branches == s.branches && s'.threads == s.threads
    requires s'.status == s.status && s'.barrier == s.barrier && (s'.status == Paused ==> !IsAtWork(s'.pc))
    requires SoundWalk(g, s'.top) && SoundPc(s'.top, s'.pc)
    ensures Sound(g, s')
  {
    hide SoundWalk, SoundPc, SoundBranches, SoundThreads, ValidPlan, SoundBarrier;
    NoThreadsOutsidePools(s);
    NoThreadsAreSound(s'.pc, s'.branches);
  }

  lemma CrashKeepsSound(g: Plan, s: State, s': State)
    requires Sound(g, s)
    requires s'.top == s.top && s'.branches == s.branches && s'.threads == map[] && s'.pc == Dead
    requires s'.status == s.status && s'.barrier == s.barrier
    ensures Sound(g, s')
  {
    hide SoundWalk, SoundBranches, ValidPlan, SoundBarrier;
  }

  lemma TokenRow(g: Plan, s: State)
    requires Sound(g, s)
    ensures OneToken(s.top) && AtRow(s.top) && SoundPc(s.top, s.pc)
    ensures IsAtWork(s.pc) ==> s.top.at == Some(s.pc.node)
    ensures SoundBarrier(s.status, s.barrier) && (s.status == Paused ==> !IsAtWork(s.pc))
    ensures SoundThreads(s.pc, s.threads, s.branches)
  {
    hide SoundBranches, SoundThreads, ValidPlan, SoundBarrier, KeepsRows;
  }

  lemma PlaceStepKeepsSound(g: Plan, s: State, l: Label)
    requires Sound(g, s) && Enabled(g, s, l) && IsPlaceMove(l)
    ensures Sound(g, Apply(g, s, l))
  {
    hide Enabled, Apply;
    hide SoundWalk, SoundBranches, SoundThreads, ValidPlan, CancelBranches, OneToken, Sound, IsScheduled;
    hide ValidRoute, Fits, JoinResult, FinishRun, SoundBarrier, ChooseLateRoute, CommitLateRoute, IsRefused, MainAttempt;
    PlaceApplies(g, s, l);
    TokenRow(g, s);
    if l.Drain? { CancelKeepsSound(g, s, true); }
    else if l.Quit? { FinishKeepsSound(g, s, INTERRUPTED, Idle); }
    else if l.HitLimit? || l.Refuse? { FinishKeepsSound(g, s, EXHAUSTED, Idle); }
    else if l.GiveUp? {
      FinishKeepsSound(g, s, UNCERTAIN, s.pc);
      FinishLeavesPc(s, UNCERTAIN);
    }
    else if l.HitNodeLimit? { FinishKeepsSound(g, s, EXHAUSTED, Top); }
    else if l.LateRoute? { LateRouteKeepsSound(g, s, ChooseLateRoute(g, s, s.pc.node, l.exhausted)); }
    else if l.Honor? { HonorKeepsSound(g, s); }
    else if l.Park? { ParkKeepsSound(g, s); }
    else {
      if l.AnswerJoin? { JoinFits(s, s.pc.node); }
      PlaceKeepsSound(g, s, Apply(g, s, l));
    }
  }

  lemma LateRouteKeepsSound(g: Plan, s: State, c: RouteChoice)
    requires Sound(g, s) && s.pc.Routing?
    ensures Sound(g, CommitLateRoute(s, c))
  {
    hide SoundWalk, SoundBranches, SoundThreads, ValidPlan, FinishRun;
    if c.Ends? { FinishKeepsSound(g, s, c.ending, Top); } else { PlaceKeepsSound(g, s, s.(pc := Top)); }
  }

  lemma FinishLeavesPc(s: State, e: Ending)
    ensures FinishRun(s, e) == FinishRun(s, e).(pc := s.pc)
  {
  }

  lemma ParkKeepsSound(g: Plan, s: State)
    requires Sound(g, s) && s.pc.Parking?
    ensures Sound(g, Apply(g, s, Park))
  {
    hide SoundWalk, SoundBranches, SoundThreads, ValidPlan;
    PlaceKeepsSound(g, s, Apply(g, s, Park));
  }

  lemma HonorKeepsSound(g: Plan, s: State)
    requires Sound(g, s) && s.pc.Settling?
    ensures Sound(g, Apply(g, s, Honor))
  {
    hide SoundWalk, SoundBranches, SoundThreads, ValidPlan, FinishRun;
    if s.barrier == InterruptBarrier { FinishKeepsSound(g, s, INTERRUPTED, Top); }
    else { PlaceKeepsSound(g, s, Apply(g, s, Honor)); }
  }

  lemma StartStepKeepsSound(g: Plan, s: State, n: Id)
    requires Sound(g, s) && s.pc == Top && s.status == Running && s.top.at == Some(n) && n in s.top.rows && s.top.rows[n].state.Ready?
    ensures Sound(g, StartAttempt(s, n))
  {
    hide SoundBranches, SoundThreads, ValidPlan, SoundBarrier, KeepsRows, OneToken, Begin, SoundPc;
    StartKeepsWalk(g, s, n);
    WalkKeepsSound(g, s, StartAttempt(s, n));
  }

  lemma PersistStepKeepsSound(g: Plan, s: State)
    requires Sound(g, s) && s.pc.Holding?
    ensures s.pc.node in s.top.rows && Sound(g, PersistResult(s, s.pc.node, s.pc.result))
  {
    hide SoundBranches, SoundThreads, ValidPlan, SoundBarrier, KeepsRows, OneToken, Settle, Checkpoint, SoundPc;
    PersistKeepsWalk(g, s);
    WalkKeepsSound(g, s, PersistResult(s, s.pc.node, s.pc.result));
  }

  lemma PollStepKeepsSound(g: Plan, s: State, n: Id, r: Result)
    requires Sound(g, s) && s.pc == Top && s.status == Running && s.top.at == Some(n) && n in s.top.rows && s.top.rows[n].state.InFlight?
    requires Fits(s.top.rows[n].node.kind, r)
    ensures Sound(g, s.(top := Polled(s.top, n), pc := Holding(n, r)))
  {
    hide SoundBranches, SoundThreads, ValidPlan, SoundBarrier;
    PolledKeepsToken(g, s.top);
    WalkKeepsSound(g, s, s.(top := Polled(s.top, n), pc := Holding(n, r)));
  }

  lemma OpenPoolKeepsSound(g: Plan, s: State, n: Id, pool: set<Slot>)
    requires Sound(g, s) && Enabled(g, s, OpenPool(n, pool))
    ensures Sound(g, Apply(g, s, OpenPool(n, pool)))
  {
    hide SoundWalk, SoundBranches, SoundThreads, ValidPlan, SoundBarrier, OneToken, IsAdmission, IsScheduled;
    TokenRow(g, s);
    SchedulerFindsTheToken(s.top, n);
    OpenPoolKeepsThreads(n, s.pc.Calling?, s.branches, Limit(s.top.rows[n].node.kind), pool);
  }

  lemma WalkStepKeepsSound(g: Plan, s: State, l: Label)
    requires Sound(g, s) && Enabled(g, s, l)
    requires !IsPlaceMove(l) && !IsAroundMove(l) && !IsBranchMove(l)
    ensures Sound(g, Apply(g, s, l))
  {
    hide SoundWalk, SoundBranches, SoundThreads, ValidPlan, OneToken, Sound, IsScheduled, IsUnresolved;
    hide ValidRoute, Fits, FinishRun, SoundBarrier, PersistResult, StartAttempt;
    hide CommitRoute, ChooseRoute, AfterPool, IsAdmission;
    TokenRow(g, s);
    if l.Start? {
      SchedulerFindsTheToken(s.top, l.node);
      StartStepKeepsSound(g, s, l.node);
    } else if l.Poll? {
      SchedulerFindsTheToken(s.top, l.node);
      PollStepKeepsSound(g, s, l.node, l.result);
    } else if l.Resume? {
      SchedulerFindsTheToken(s.top, l.node);
      PlaceKeepsSound(g, s, Apply(g, s, l));
    } else if l.Persist? { PersistStepKeepsSound(g, s); }
    else if l.Route? { RouteKeepsSound(g, s); }
    else if l.OpenPool? { OpenPoolKeepsSound(g, s, l.node, l.pool); }
    else { ClosePoolKeepsSound(g, s, IsStopRead(s, l)); }
  }

  lemma AroundStepKeepsSound(g: Plan, s: State, l: Label)
    requires Sound(g, s) && Enabled(g, s, l) && IsAroundMove(l)
    ensures Sound(g, Apply(g, s, l))
  {
    hide Enabled, Apply;
    hide SoundWalk, SoundBranches, SoundThreads, ValidPlan, OneToken, Sound;
    hide FinishRun, SoundBarrier, CancelBranches, IsUncertain, RestartFrom, ApplyControl;
    AroundApplies(g, s, l);
    TokenRow(g, s);
    if l.Control? { ControlKeepsSound(g, s, l.action); }
    else if l.Sweep? { SweepKeepsSound(g, s); }
    else if l.Cancel? { if !IsOver(s) { CancelRunKeepsSound(g, s); } }
    else if l.Freeze? { FreezeKeepsSound(g, s); }
    else if l.Crash? { CrashKeepsSound(g, s, Apply(g, s, l)); }
    else if l.Recover? { RecoverKeepsSound(g, s); }
    else { RestartKeepsSound(g, s, l.budget); }
  }

  lemma RecoverKeepsSound(g: Plan, s: State)
    requires Sound(g, s) && Enabled(g, s, Recover)
    ensures Sound(g, Apply(g, s, Recover))
  {
    hide SoundWalk, SoundBranches, SoundThreads, ValidPlan, OneToken, Sound, FinishRun, SoundBarrier, IsUncertain;
    TokenRow(g, s);
    if IsUncertain(s) { FinishKeepsSound(g, s, UNCERTAIN, Idle); }
    else { PlaceKeepsSound(g, s, Apply(g, s, Recover)); }
  }

  lemma FreezeKeepsSound(g: Plan, s: State)
    requires Sound(g, s) && s.freezing
    ensures Sound(g, Apply(g, s, Freeze))
  {
    hide SoundWalk, SoundPc, SoundBranches, SoundThreads, ValidPlan, SoundBarrier;
  }

  lemma SweepKeepsSound(g: Plan, s: State)
    requires Sound(g, s) && s.sweeping
    ensures Sound(g, Apply(g, s, Sweep))
  {
    hide SoundWalk, SoundPc, SoundBranches, SoundThreads, ValidPlan, SoundBarrier, CancelBranches;
    CancelKeepsBranches(s.branches, false);
    CancelKeepsThreads(s.pc, s.threads, s.branches, false);
  }

  lemma BranchStepKeepsSound(g: Plan, s: State, l: Label)
    requires Sound(g, s) && Enabled(g, s, l) && IsBranchMove(l)
    ensures Sound(g, Apply(g, s, l))
  {
    hide Enabled, Apply;
    hide SoundWalk, SoundBranches, SoundThreads, ValidPlan, OneToken, Sound, Fits, SoundBarrier, SoundBranch, SoundPc;
    hide LookAtBranch, ChooseStart, CommitStart, PollBranchHandle, PersistBranchResult, ChooseBranchRoute;
    hide CommitBranchRoute, Close, CloseBranch, BranchAttempt;
    BranchApplies(g, s, l);
    if l.Look? { LookKeepsSound(g, s, l.slot); }
    else if l.StartBranch? { StartBranchKeepsSound(g, s, l.slot, l.limit); }
    else if l.FailBranch? { ThreadWriteKeepsSound(g, s, l.slot, Out(true)); }
    else if l.AnswerBranch? { AnswerBranchKeepsSound(g, s, l.slot, l.result); }
    else if l.PollBranch? { PollBranchKeepsSound(g, s, l.slot, l.result); }
    else if l.PersistBranch? { PersistBranchKeepsSound(g, s, l.slot); }
    else if l.RouteBranch? { RouteBranchKeepsSound(g, s, l.slot); }
    else { BlockBranchKeepsSound(g, s, l.slot); }
  }

  lemma AnswerBranchKeepsSound(g: Plan, s: State, slot: Slot, r: Result)
    requires Sound(g, s) && Enabled(g, s, AnswerBranch(slot, r))
    ensures Sound(g, Apply(g, s, AnswerBranch(slot, r)))
  {
    hide SoundWalk, SoundBranches, SoundThreads, ValidPlan, OneToken, Fits, SoundBarrier, SoundBranch, SoundPc;
    ThreadHasNode(g, s, slot);
    ThreadWriteKeepsSound(g, s, slot, Answered(r));
  }

  lemma StepKeepsSound(g: Plan, s: State, l: Label)
    requires Sound(g, s) && Enabled(g, s, l)
    ensures Sound(g, Apply(g, s, l))
  {
    hide Sound, Enabled, Apply;
    if IsPlaceMove(l) { PlaceStepKeepsSound(g, s, l); }
    else if IsAroundMove(l) { AroundStepKeepsSound(g, s, l); }
    else if IsBranchMove(l) { BranchStepKeepsSound(g, s, l); }
    else { WalkStepKeepsSound(g, s, l); }
  }

  lemma {:induction false} RunKeepsSound(g: Plan, s: State, ls: seq<Label>)
    requires Sound(g, s) && IsRun(g, s, ls)
    ensures Sound(g, Exec(g, s, ls))
    decreases |ls|
  {
    hide Sound, Enabled, Apply;
    if ls != [] {
      StepKeepsSound(g, s, ls[0]);
      RunKeepsSound(g, Apply(g, s, ls[0]), ls[1..]);
    }
  }

  // ---- main results ----

  lemma ReachableIsSound(g: Plan, budget: Budget, s: State)
    requires Reachable(g, budget, s)
    ensures Sound(g, s)
  {
    hide Sound, Enabled, Apply, IsRun, Exec;
    var ls :| IsRun(g, Init(g, budget), ls) && Exec(g, Init(g, budget), ls) == s;
    InitIsSound(g, budget);
    RunKeepsSound(g, Init(g, budget), ls);
  }

  /** Ready, running, or done with an unrouted result. */
  predicate IsOwedWork(r: Row) {
    r.state.Ready? || r.state.InFlight? || (r.state.Settled? && r.result.Some? && !r.routed)
  }

  /** Never reached, or done and routed. */
  predicate IsBehind(r: Row) {
    (r.state.Waiting? && r.result.None?) || (r.state.Settled? && r.result.Some? && r.routed)
  }

  ghost predicate HasTokenAt(w: Walk, n: Id) {
    && w.at == Some(n) && n in w.rows && IsOwedWork(w.rows[n])
    && forall m | m in w.rows && m != n :: IsBehind(w.rows[m]) && !IsOwedWork(w.rows[m])
  }

  lemma OneTokenIsAtOneNode(w: Walk)
    requires OneToken(w)
    ensures HasTokenAt(w, w.at.value)
  {
    forall m | m in w.rows && m != w.at.value ensures IsBehind(w.rows[m]) && !IsOwedWork(w.rows[m]) {
      assert IsResting(w.rows[m]);
    }
  }

  /** The single-token theorem, for the run's own nodes and for every unsettled branch. */
  lemma ReachableHasOneToken(g: Plan, budget: Budget, s: State)
    requires Reachable(g, budget, s)
    ensures exists n :: HasTokenAt(s.top, n)
    ensures forall slot | slot in s.branches && IsUnsettled(s.branches[slot]) ::
      exists n :: HasTokenAt(s.branches[slot].walk, n)
  {
    hide Enabled, Apply, OneToken, KeepsRows, HasTokenAt, Reachable, SoundThreads;
    ReachableIsSound(g, budget, s);
    OneTokenIsAtOneNode(s.top);
    forall slot | slot in s.branches && IsUnsettled(s.branches[slot])
      ensures exists n :: HasTokenAt(s.branches[slot].walk, n)
    {
      assert SoundBranch(slot, s.branches[slot]);
      OneTokenIsAtOneNode(s.branches[slot].walk);
    }
  }

  /**
   The two internal errors of the loop are unreachable: there is always a node to schedule or
   a result to route, and what a start transaction finds is ready.
   */
  lemma SchedulerNeverFails(g: Plan, budget: Budget, s: State)
    requires Reachable(g, budget, s)
    ensures exists n :: IsScheduled(s.top.rows, n) || IsUnresolved(s.top.rows, n)
    ensures forall n | IsScheduled(s.top.rows, n) || IsUnresolved(s.top.rows, n) :: s.top.at == Some(n)
    ensures forall slot | slot in s.threads && s.threads[slot].Starting? ::
      HasBranchNode(s, slot) && RowAt(s, slot).state.Ready?
  {
    hide Enabled, Apply, Sound, KeepsRows, Reachable, IsScheduled, IsUnresolved;
    ReachableIsSound(g, budget, s);
    TokenRow(g, s);
    var n := s.top.at.value;
    SchedulerFindsTheToken(s.top, n);
    assert IsScheduled(s.top.rows, n) || IsUnresolved(s.top.rows, n);
    forall m | IsScheduled(s.top.rows, m) || IsUnresolved(s.top.rows, m) ensures s.top.at == Some(m) {
      SchedulerFindsTheToken(s.top, m);
    }
    forall slot | slot in s.threads && s.threads[slot].Starting?
      ensures HasBranchNode(s, slot) && RowAt(s, slot).state.Ready?
    {
      ThreadHasNode(g, s, slot);
    }
  }
}
