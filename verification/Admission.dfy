/**
 Bounded admission. In every reachable state, under any interleaving of branch threads with
 controls, at most max_concurrency branches of a container are active. A settled branch becomes
 active again in one kind of run only: the pause that an interrupt met was stored before the
 interrupt had swept its pending branches.
 */
module Admission {
  import opened Sets
  import opened Options
  import opened Graphs
  import opened Results
  import opened Walks
  import opened Reports
  import opened Machine
  import opened Tokens
  import opened Effects

  ghost function LimitOf(g: Plan, n: Id): nat
    requires n in Ids(g)
  {
    Limit(NodeOf(g, n).kind)
  }

  ghost predicate WithinLimits(g: Plan, bs: map<Slot, Branch>) {
    forall n | n in Ids(g) :: |ActiveOf(bs, n)| <= LimitOf(g, n)
  }

  /** While a pool is open its threads are at most the limit and cover the active branches. */
  ghost predicate PoolCovers(g: Plan, pc: Pc, ts: map<Slot, Thread>, bs: map<Slot, Branch>) {
    pc.Pooling? ==>
      && pc.node in Ids(g)
      && |ts.Keys| <= LimitOf(g, pc.node)
      && ActiveOf(bs, pc.node) <= ts.Keys
  }

  ghost predicate Admitted(g: Plan, s: State) {
    WithinLimits(g, s.branches) && PoolCovers(g, s.pc, s.threads, s.branches)
  }

  /** Active branches come first, so an admission takes them all as long as they fit. */
  lemma AdmissionTakesTheActive(bs: map<Slot, Branch>, n: Id, limit: nat, pool: set<Slot>)
    requires IsAdmission(bs, n, limit, pool) && |ActiveOf(bs, n)| <= limit
    ensures ActiveOf(bs, n) <= pool && |pool| <= limit
  {
    var active, waiting := ActiveOf(bs, n), UnsettledOf(bs, n);
    if a :| a in active && a !in pool {
      assert a in waiting;
      forall p | p in pool ensures p in active - {a} {
        assert Precedes(bs[p], bs[a]);
        assert p in waiting;
      }
      SubsetIsSmaller(pool, active - {a});
      SubsetIsSmaller(pool, waiting);
    }
  }

  lemma OutsideShrinksActive(bs: map<Slot, Branch>, bs': map<Slot, Branch>, n: Id)
    requires BranchesKept(bs, bs')
    ensures ActiveOf(bs', n) <= ActiveOf(bs, n) && |ActiveOf(bs', n)| <= |ActiveOf(bs, n)|
  {
    SubsetIsSmaller(ActiveOf(bs', n), ActiveOf(bs, n));
  }

  lemma OutsideKeepsLimits(g: Plan, bs: map<Slot, Branch>, bs': map<Slot, Branch>)
    requires BranchesKept(bs, bs') && WithinLimits(g, bs)
    ensures WithinLimits(g, bs')
  {
    hide BranchesKept;
    forall n | n in Ids(g) ensures |ActiveOf(bs', n)| <= LimitOf(g, n) { OutsideShrinksActive(bs, bs', n); }
  }

  lemma OtherMoveKeepsAdmitted(g: Plan, s: State, l: Label)
    requires Sound(g, s) && Admitted(g, s) && Enabled(g, s, l) && !IsBranchMove(l) && !l.Restart? && !l.OpenPool?
    ensures Admitted(g, Apply(g, s, l))
  {
    hide Sound, Enabled, Apply, WithinLimits, ActiveOf, BranchesKept;
    var s' := Apply(g, s, l);
    OtherMovesFromOutside(g, s, l);
    OutsideKeepsLimits(g, s.branches, s'.branches);
    if s'.pc.Pooling? { OutsideShrinksActive(s.branches, s'.branches, s.pc.node); }
  }

  lemma OpenPoolIsAdmitted(g: Plan, s: State, n: Id, pool: set<Slot>)
    requires Sound(g, s) && Admitted(g, s) && Enabled(g, s, OpenPool(n, pool))
    ensures Admitted(g, Apply(g, s, OpenPool(n, pool)))
  {
    hide Sound, IsAdmission, ActiveOf, IsScheduled;
    SoundHasRows(g, s);
    NodeIsUnique(g, s.top.rows[n].node);
    AdmissionTakesTheActive(s.branches, n, Limit(s.top.rows[n].node.kind), pool);
    assert (map slot | slot in pool :: Entering).Keys == pool;
  }

  lemma SoundHasRows(g: Plan, s: State)
    requires Sound(g, s)
    ensures DistinctIds(g.nodes) && KeepsRows(g, s.top)
  {
    hide KeepsRows, OneToken, SoundBranches, SoundThreads;
  }

  lemma ThreadsAreOfThePool(g: Plan, s: State, slot: Slot)
    requires Sound(g, s) && slot in s.threads
    ensures s.pc.Pooling? && slot.container == s.pc.node
  {
    hide SoundWalk, SoundPc, SoundBranches, ValidPlan, SoundBarrier, SoundThread;
  }

  /** A branch thread can only activate its own branch, which the pool already covers. */
  lemma SlotMoveKeepsLimits(g: Plan, s: State, s': State, slot: Slot)
    requires OnlySlot(s, s', slot) && slot in s.threads && s.pc.Pooling? && slot.container == s.pc.node
    requires Admitted(g, s)
    ensures Admitted(g, s')
  {
    forall n | n in Ids(g) ensures |ActiveOf(s'.branches, n)| <= LimitOf(g, n) {
      if n == s.pc.node {
        SubsetIsSmaller(ActiveOf(s'.branches, n), s.threads.Keys);
      } else {
        assert ActiveOf(s'.branches, n) == ActiveOf(s.branches, n);
      }
    }
  }

  lemma RestartKeepsAdmitted(g: Plan, s: State, budget: Budget)
    requires Admitted(g, s)
    ensures Admitted(g, RestartFrom(s, budget))
  {
    hide Inherit;
    var bs' := InheritBranches(s.branches);
    forall n | n in Ids(g) ensures |ActiveOf(bs', n)| <= LimitOf(g, n) {
      assert ActiveOf(bs', n) == {};
    }
  }

  lemma StepKeepsAdmitted(g: Plan, s: State, l: Label)
    requires Sound(g, s) && Admitted(g, s) && Enabled(g, s, l)
    ensures Admitted(g, Apply(g, s, l))
  {
    hide Sound, Admitted, OnlySlot, RestartFrom;
    if l.Restart? { RestartKeepsAdmitted(g, s, l.budget); }
    else {
      hide Apply, Enabled;
      if IsBranchMove(l) {
        BranchMoveTouches(g, s, l);
        ThreadsAreOfThePool(g, s, l.slot);
        SlotMoveKeepsLimits(g, s, Apply(g, s, l), l.slot);
      } else if l.OpenPool? { OpenPoolIsAdmitted(g, s, l.node, l.pool); }
      else { OtherMoveKeepsAdmitted(g, s, l); }
    }
  }

  lemma {:induction false} RunKeepsAdmitted(g: Plan, s: State, ls: seq<Label>)
    requires Sound(g, s) && Admitted(g, s) && IsRun(g, s, ls)
    ensures Admitted(g, Exec(g, s, ls))
    decreases |ls|
  {
    hide Sound, Admitted, Enabled, Apply;
    if ls != [] {
      StepKeepsAdmitted(g, s, ls[0]);
      StepKeepsSound(g, s, ls[0]);
      RunKeepsAdmitted(g, Apply(g, s, ls[0]), ls[1..]);
    }
  }

  lemma InitIsAdmitted(g: Plan, budget: Budget)
    requires ValidGraph(g)
    ensures Admitted(g, Init(g, budget))
  {
    hide OrderOf, PlanOf, ValidGraph;
    forall n | n in Ids(g) ensures |ActiveOf(Init(g, budget).branches, n)| <= LimitOf(g, n) {
      assert ActiveOf(Init(g, budget).branches, n) == {};
    }
  }

  // ---- settled branches ----

  ghost predicate IsClosed(bs: map<Slot, Branch>, slot: Slot) { slot in bs && bs[slot].status.Closed? }

  lemma OutsideKeepsClosed(bs: map<Slot, Branch>, bs': map<Slot, Branch>, slot: Slot)
    requires BranchesKept(bs, bs') && IsClosed(bs, slot)
    ensures IsClosed(bs', slot) && bs'[slot] == bs[slot]
  {
  }

  /** The start transaction of the branch at `slot` begins an attempt; it does not look at the branch's own status. */
  ghost predicate Reopens(s: State, l: Label, slot: Slot) {
    l.StartBranch? && l.slot == slot && HasBranchNode(s, slot) && ChooseStart(s, slot, l.limit).Begins?
  }

  lemma OwnMoveReopens(g: Plan, s: State, l: Label)
    requires Sound(g, s) && Enabled(g, s, l) && IsBranchMove(l) && IsClosed(s.branches, l.slot)
    ensures l.slot in Apply(g, s, l).branches
    ensures IsClosed(Apply(g, s, l).branches, l.slot) <==> !Reopens(s, l, l.slot)
  {
    hide Enabled, Apply;
    hide Sound, Fits, EdgesHaveRows, BlockedResult, LookAtBranch, ChooseBranchRoute, ChooseStart, CommitStart;
    hide CommitBranchRoute, PersistBranchResult, Polled;
    BranchApplies(g, s, l);
    if l.StartBranch? { StartReopens(s, l.slot, ChooseStart(s, l.slot, l.limit)); }
    else if l.PersistBranch? { PersistKeepsStatus(s, l.slot, s.threads[l.slot].result); }
    else if l.RouteBranch? {
      ChosenBranchRouteIsAllowed(s, l.slot, s.threads[l.slot].result);
      RouteKeepsClosed(s, l.slot, ChooseBranchRoute(s, l.slot, s.threads[l.slot].result));
    }
  }

  lemma StartReopens(s: State, slot: Slot, c: StartChoice)
    requires HasBranchNode(s, slot) && IsClosed(s.branches, slot)
    ensures slot in CommitStart(s, slot, c).branches
    ensures IsClosed(CommitStart(s, slot, c).branches, slot) <==> !c.Begins?
  {
    hide Begin;
  }

  lemma PersistKeepsStatus(s: State, slot: Slot, r: Result)
    requires HasBranchNode(s, slot)
    ensures var bs' := PersistBranchResult(s, slot, r).branches;
      slot in bs' && bs'[slot].status == s.branches[slot].status
  {
    hide Settle, Checkpoint;
  }

  lemma RouteKeepsClosed(s: State, slot: Slot, c: BranchChoice)
    requires HasThread(s, slot) && IsClosed(s.branches, slot)
    requires c.Walks? ==> c.edge.from in s.branches[slot].walk.rows && c.edge.to in s.branches[slot].walk.rows
    ensures IsClosed(CommitBranchRoute(s, slot, c).branches, slot)
  {
    hide Advance;
  }

  /** A settled branch becomes active again by a start of its own thread that begins, and by nothing else. */
  lemma ClosedIsReopenedExactlyWhen(g: Plan, s: State, l: Label, slot: Slot)
    requires Sound(g, s) && Enabled(g, s, l) && IsClosed(s.branches, slot)
    ensures slot in Apply(g, s, l).branches
    ensures !IsClosed(Apply(g, s, l).branches, slot) <==> Reopens(s, l, slot)
  {
    hide Sound, OnlySlot, BranchesKept, Inherit, Reopens;
    if !l.Restart? {
      hide Apply, Enabled;
      OnlyStartsReopen(s, l, slot);
      if IsBranchMove(l) {
        if l.slot == slot { OwnMoveReopens(g, s, l); }
        else {
          BranchMoveTouches(g, s, l);
          OtherSlotKeepsBranch(s, Apply(g, s, l), l.slot, slot);
        }
      } else {
        OtherMovesFromOutside(g, s, l);
        OutsideKeepsClosed(s.branches, Apply(g, s, l).branches, slot);
      }
    } else { OnlyStartsReopen(s, l, slot); }
  }

  lemma OnlyStartsReopen(s: State, l: Label, slot: Slot)
    ensures Reopens(s, l, slot) ==> IsBranchMove(l) && l.slot == slot
  {
  }

  lemma OtherSlotKeepsBranch(s: State, s': State, slot: Slot, other: Slot)
    requires OnlySlot(s, s', slot) && other != slot && other in s.branches
    ensures other in s'.branches && s'.branches[other] == s.branches[other]
  {
  }

  // ---- the order of an interrupt ----

  /** Interrupted, cancelled or over: the run will not go on. */
  predicate IsStopping(status: RunStatus) { status == Quiescing || status.Terminal? }

  ghost predicate ThreadsAreOpen(ts: map<Slot, Thread>, bs: map<Slot, Branch>) {
    forall slot | slot in ts :: ts[slot].Out? || (slot in bs && IsUnsettled(bs[slot]))
  }

  /** An interrupt sweeps the run it stops, and while the run goes on the threads work for unsettled branches. */
  ghost predicate IsOrderly(s: State) {
    IsStopping(s.status) || (!s.sweeping && ThreadsAreOpen(s.threads, s.branches))
  }

  lemma OpenThreadsAreOpen(bs: map<Slot, Branch>, n: Id, limit: nat, pool: set<Slot>)
    requires IsAdmission(bs, n, limit, pool)
    ensures ThreadsAreOpen(map slot | slot in pool :: Entering, bs)
  {
    forall slot | slot in pool ensures slot in bs && IsUnsettled(bs[slot]) { assert slot in UnsettledOf(bs, n); }
  }

  lemma OwnMoveStaysOpen(g: Plan, s: State, l: Label)
    requires Enabled(g, s, l) && IsBranchMove(l) && l.slot in s.branches && IsUnsettled(s.branches[l.slot])
    ensures var s' := Apply(g, s, l);
      l.slot in s'.threads && l.slot in s'.branches && (s'.threads[l.slot].Out? || IsUnsettled(s'.branches[l.slot]))
  {
    hide Enabled, Apply;
    hide Fits, BlockedResult, LookAtBranch, ChooseBranchRoute, ChooseStart, CommitStart, CommitBranchRoute, PersistBranchResult, Polled;
    hide BranchAttempt, Close;
    BranchApplies(g, s, l);
    if l.StartBranch? { StartStaysOpen(s, l.slot, ChooseStart(s, l.slot, l.limit)); }
    else if l.PersistBranch? { PersistStaysOpen(s, l.slot, s.threads[l.slot].result); }
    else if l.RouteBranch? { RouteStaysOpen(s, l.slot, ChooseBranchRoute(s, l.slot, s.threads[l.slot].result)); }
  }

  lemma PersistStaysOpen(s: State, slot: Slot, r: Result)
    requires HasBranchNode(s, slot)
    ensures var s' := PersistBranchResult(s, slot, r);
      slot in s'.threads && slot in s'.branches && s'.branches[slot].status == s.branches[slot].status
  {
    hide Settle, Checkpoint;
  }

  lemma StartStaysOpen(s: State, slot: Slot, c: StartChoice)
    requires HasBranchNode(s, slot) && IsUnsettled(s.branches[slot])
    ensures var s' := CommitStart(s, slot, c);
      slot in s'.threads && slot in s'.branches && IsUnsettled(s'.branches[slot])
  {
    hide Begin;
  }

  lemma RouteStaysOpen(s: State, slot: Slot, c: BranchChoice)
    requires HasThread(s, slot) && IsUnsettled(s.branches[slot])
    requires c.Walks? ==> c.edge.from in s.branches[slot].walk.rows && c.edge.to in s.branches[slot].walk.rows
    ensures var s' := CommitBranchRoute(s, slot, c);
      slot in s'.threads && slot in s'.branches && (s'.threads[slot].Out? || IsUnsettled(s'.branches[slot]))
  {
    hide Advance;
  }

  lemma BranchMoveStaysOpen(g: Plan, s: State, l: Label)
    requires Sound(g, s) && Enabled(g, s, l) && IsBranchMove(l) && ThreadsAreOpen(s.threads, s.branches)
    ensures ThreadsAreOpen(Apply(g, s, l).threads, Apply(g, s, l).branches)
  {
    hide Sound, Apply, Enabled;
    BranchMoveTouches(g, s, l);
    MovingThreadIsNotOut(g, s, l);
    OwnMoveStaysOpen(g, s, l);
  }

  lemma MovingThreadIsNotOut(g: Plan, s: State, l: Label)
    requires Enabled(g, s, l) && IsBranchMove(l)
    ensures l.slot in s.threads && !s.threads[l.slot].Out?
  {
    hide Enabled, Apply;
    hide Fits, EdgesHaveRows, ValidBranchNode;
    BranchApplies(g, s, l);
  }

  /** The step keeps that order, unless it stores a pause before an outstanding sweep. */
  lemma OrderIsKeptExactlyWhen(g: Plan, s: State, l: Label)
    requires Sound(g, s) && Enabled(g, s, l) && IsOrderly(s)
    ensures IsOrderly(Apply(g, s, l)) <==> !(l.Park? && s.sweeping)
  {
    hide Sound, ThreadsAreOpen, OnlySlot;
    if IsBranchMove(l) {
      hide Apply, Enabled;
      BranchMoveTouches(g, s, l);
      SameRunRow(s, Apply(g, s, l), l.slot);
      if !IsStopping(s.status) { BranchMoveStaysOpen(g, s, l); }
    } else if IsAroundMove(l) { AroundMoveKeepsOrder(g, s, l); }
    else if IsPlaceMove(l) { PlaceMoveKeepsOrder(g, s, l); }
    else { WorkMoveKeepsOrder(g, s, l); }
  }

  lemma SameRunRow(s: State, s': State, slot: Slot)
    requires OnlySlot(s, s', slot)
    ensures s'.status == s.status && s'.barrier == s.barrier && s'.sweeping == s.sweeping
  {
  }

  lemma NoThreadsAreOpen(bs: map<Slot, Branch>)
    ensures ThreadsAreOpen(map[], bs)
  {
  }

  lemma AroundMoveKeepsOrder(g: Plan, s: State, l: Label)
    requires Sound(g, s) && Enabled(g, s, l) && IsAroundMove(l) && IsOrderly(s)
    ensures IsOrderly(Apply(g, s, l))
  {
    hide Enabled, Apply;
    hide Sound, ThreadsAreOpen, CancelBranches, IsUncertain, Inherit, InheritBranches, OneToken, SoundPc, SoundThreads;
    AroundApplies(g, s, l);
    NoThreadsAreOpen(Apply(g, s, l).branches);
    TokenRow(g, s);
  }

  lemma PlaceMoveKeepsOrder(g: Plan, s: State, l: Label)
    requires Sound(g, s) && Enabled(g, s, l) && IsPlaceMove(l) && IsOrderly(s)
    ensures IsOrderly(Apply(g, s, l)) <==> !(l.Park? && s.sweeping)
  {
    hide Enabled, Apply;
    hide Sound, ThreadsAreOpen, CancelBranches, Fits, JoinResult, IsScheduled, IsRefused, MainAttempt, ChooseLateRoute;
    PlaceApplies(g, s, l);
    TokenRow(g, s);
    PlaceMovesOutsidePools(g, s, l);
    NoThreadsOutsidePools(s);
    NoThreadsAreOpen(Apply(g, s, l).branches);
  }

  lemma PlaceMovesOutsidePools(g: Plan, s: State, l: Label)
    requires Enabled(g, s, l) && IsPlaceMove(l)
    ensures !s.pc.Pooling?
  {
    hide Enabled, Apply;
    hide Fits, IsScheduled, IsRefused, ValidRoute;
    PlaceApplies(g, s, l);
  }

  lemma WorkMoveKeepsOrder(g: Plan, s: State, l: Label)
    requires Sound(g, s) && Enabled(g, s, l) && IsWorkMove(l) && IsOrderly(s)
    ensures IsOrderly(Apply(g, s, l))
  {
    hide Enabled, Apply;
    hide Sound, ThreadsAreOpen, AfterPool, IsAdmission, Polled, PersistResult, StartAttempt, ChooseRoute, CommitRoute, UnsettledOf;
    WorkApplies(g, s, l);
    var s' := Apply(g, s, l);
    NoThreadsAreOpen(s'.branches);
    if ClosesPool(l) {
      AfterPoolKeepsRun(s, s.pc.node, s.pc.first, IsStopRead(s, l));
      AfterPoolHasNoThreads(s, s.pc.node, s.pc.first, IsStopRead(s, l));
    }
    else if l.OpenPool? { OpenThreadsAreOpen(s.branches, l.node, Limit(s.top.rows[l.node].node.kind), l.pool); }
    else if l.Start? { WritesKeepOrder(s, l.node, BOUNDARY); }
    else if l.Persist? { WritesKeepOrder(s, s.pc.node, s.pc.result); }
    else if l.Route? {
      ChosenRouteIsAllowed(g, s, s.pc.node);
      RouteKeepsOrder(s, ChooseRoute(g, s, s.pc.node));
    }
  }

  lemma WritesKeepOrder(s: State, n: Id, r: Result)
    requires n in s.top.rows && IsOrderly(s)
    ensures IsOrderly(StartAttempt(s, n)) && IsOrderly(PersistResult(s, n, r))
  {
    hide Begin, Settle, Checkpoint, ThreadsAreOpen;
  }

  lemma RouteKeepsOrder(s: State, c: RouteChoice)
    requires c.Moves? ==> c.edge.from in s.top.rows && c.edge.to in s.top.rows
    requires IsOrderly(s)
    ensures IsOrderly(CommitRoute(s, c))
  {
    hide Advance, ThreadsAreOpen;
  }

  /** While the run is in order, no start reopens a settled branch. */
  lemma OrderlyRunDoesNotReopen(g: Plan, s: State, l: Label, slot: Slot)
    requires Sound(g, s) && Enabled(g, s, l) && IsOrderly(s) && IsClosed(s.branches, slot)
    ensures !Reopens(s, l, slot)
  {
    hide Sound, Fits;
    TokenRow(g, s);
  }

  /** No pause of the run is stored before an outstanding sweep. */
  ghost predicate SweepsBeforePauses(g: Plan, s: State, ls: seq<Label>)
    requires IsRun(g, s, ls)
    decreases |ls|
  {
    ls == [] || (!(ls[0].Park? && s.sweeping) && SweepsBeforePauses(g, Apply(g, s, ls[0]), ls[1..]))
  }

  /** Then a settled branch stays settled, in every step, control, crash and restart. */
  lemma {:induction false} RunKeepsClosed(g: Plan, s: State, ls: seq<Label>, slot: Slot)
    requires Sound(g, s) && IsOrderly(s) && IsRun(g, s, ls) && SweepsBeforePauses(g, s, ls) && IsClosed(s.branches, slot)
    ensures IsClosed(Exec(g, s, ls).branches, slot)
    decreases |ls|
  {
    hide Sound, IsClosed, Enabled, Apply, IsOrderly, Reopens;
    if ls != [] {
      OrderlyRunDoesNotReopen(g, s, ls[0], slot);
      ClosedIsReopenedExactlyWhen(g, s, ls[0], slot);
      OrderIsKeptExactlyWhen(g, s, ls[0]);
      StepKeepsSound(g, s, ls[0]);
      RunKeepsClosed(g, Apply(g, s, ls[0]), ls[1..], slot);
    }
  }

  // ---- main result ----

  lemma AdmissionIsBounded(g: Plan, budget: Budget, s: State)
    requires Reachable(g, budget, s)
    ensures forall n | n in g.nodes && n.kind.Parallel? :: |ActiveOf(s.branches, n.id)| <= n.kind.maxConcurrency
    ensures forall n | n in g.nodes && n.kind.Nested? :: |ActiveOf(s.branches, n.id)| <= 1
  {
    hide Sound, Enabled, Apply, IsRun, Exec, ActiveOf;
    var ls :| IsRun(g, Init(g, budget), ls) && Exec(g, Init(g, budget), ls) == s;
    InitIsSound(g, budget);
    InitIsAdmitted(g, budget);
    RunKeepsAdmitted(g, Init(g, budget), ls);
    forall n | n in g.nodes ensures |ActiveOf(s.branches, n.id)| <= Limit(n.kind) { NodeIsUnique(g, n); }
  }
}
