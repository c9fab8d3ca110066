/**
 Schedule independence. With fixed answers and enough shared budget, every interleaving of a
 container's branch threads, under every max_concurrency, leaves each branch exactly where it
 ends when it is run alone; so the container's answer is the combination of the solo results.
 And whatever the answers, some schedule does bring the container to its end.
 */
module Schedules {
  import opened Options
  import opened Graphs
  import opened Results
  import opened Walks
  import opened Reports
  import opened Machine
  import opened Tokens
  import opened Effects
  import opened Admission
  import opened Progress
  import Ordering

  /** The answer to one attempt of one branch node, and to each later poll of its handle. */
  type Oracle = (Slot, Id, nat, nat) -> Result

  /** A pending answer names its handle. */
  ghost predicate NamesHandles(o: Oracle) { forall slot, n, attempt, poll :: o(slot, n, attempt, poll) != Awaiting("") }

  // ---- a branch run alone ----

  function AnswerTo(slot: Slot, b: Branch, o: Oracle): Result
    requires AtRow(b.walk)
  {
    var row := Current(b.walk);
    o(slot, b.walk.at.value, row.attempts, if row.trigger.Checkpointed? then row.polls + 1 else row.polls)
  }

  /** One step of a branch that has the budget to itself. */
  function Next(slot: Slot, b: Branch, o: Oracle): Branch {
    if !IsUnsettled(b) || !AtRow(b.walk) then b
    else
      var n, row := b.walk.at.value, Current(b.walk);
      match row.state
      case Ready => if WithinNodeCalls(row) then BeginBranch(b) else Close(b, BlockedResult(slot, false))
      case InFlight =>
        var r := AnswerTo(slot, b, o);
        if r.Awaiting? && row.trigger.Untriggered? then Close(b, BlockedResult(slot, true))
        else if r.Awaiting? then b.(walk := Checkpoint(Asked(b), n, r.externalHandle))
        else b.(walk := Settle(Asked(b), n, r))
      case Settled(_) =>
        if row.result.None? || row.result.value.Awaiting? || !EdgesHaveRows(b) then b
        else
          var r := row.result.value;
          (match Select(b.plan.edges, b.walk.counts, n, r, row.attempts)
           case None => Close(b, FinishedBranchResult(slot, b.walk, r))
           case Some(e) => b.(walk := Advance(b.walk, e, IsRepair(e, r))))
      case Waiting => b
  }

  /** The walk once the running node has been asked again, if it has a handle to ask by. */
  function Asked(b: Branch): Walk
    requires AtRow(b.walk)
  {
    if Current(b.walk).trigger.Checkpointed? then Polled(b.walk, b.walk.at.value) else b.walk
  }

  function Alone(slot: Slot, b: Branch, o: Oracle, k: nat): Branch {
    if k == 0 then b else Next(slot, Alone(slot, b, o, k - 1), o)
  }

  /** Does this step start an attempt, does it take a repair? */
  function StartsOne(b: Branch): nat {
    if IsUnsettled(b) && AtRow(b.walk) && Current(b.walk).state.Ready? && WithinNodeCalls(Current(b.walk)) then 1 else 0
  }

  function RepairsOne(b: Branch): nat {
    if IsUnsettled(b) && AtRow(b.walk) && Current(b.walk).state.Settled? && Current(b.walk).result.Some?
       && !Current(b.walk).result.value.Awaiting?
    then
      var row := Current(b.walk);
      match Select(b.plan.edges, b.walk.counts, b.walk.at.value, row.result.value, row.attempts)
      case None => 0
      case Some(e) => if IsRepair(e, row.result.value) then 1 else 0
    else 0
  }

  function CallsAlone(slot: Slot, b: Branch, o: Oracle, k: nat): nat {
    if k == 0 then 0 else CallsAlone(slot, b, o, k - 1) + StartsOne(Alone(slot, b, o, k - 1))
  }

  function RepairsAlone(slot: Slot, b: Branch, o: Oracle, k: nat): nat {
    if k == 0 then 0 else RepairsAlone(slot, b, o, k - 1) + RepairsOne(Alone(slot, b, o, k - 1))
  }

  /** Alone, the branch is settled after `k` steps. */
  ghost predicate SettlesAlone(slot: Slot, b: Branch, o: Oracle, k: nat) { !IsUnsettled(Alone(slot, b, o, k)) }

  /** Once settled, nothing changes any more. */
  lemma {:induction false} SettledStays(slot: Slot, b: Branch, o: Oracle, k: nat, m: nat)
    requires SettlesAlone(slot, b, o, k) && k <= m
    ensures Alone(slot, b, o, m) == Alone(slot, b, o, k)
    ensures CallsAlone(slot, b, o, m) == CallsAlone(slot, b, o, k)
    ensures RepairsAlone(slot, b, o, m) == RepairsAlone(slot, b, o, k)
    decreases m
  {
    if k < m { SettledStays(slot, b, o, k, m - 1); }
  }

  lemma {:induction false} CountsGrow(slot: Slot, b: Branch, o: Oracle, k: nat, m: nat)
    requires k <= m
    ensures CallsAlone(slot, b, o, k) <= CallsAlone(slot, b, o, m)
    ensures RepairsAlone(slot, b, o, k) <= RepairsAlone(slot, b, o, m)
    decreases m
  {
    if k < m { CountsGrow(slot, b, o, k, m - 1); }
  }

  lemma CountsAreBounded(slot: Slot, b: Branch, o: Oracle, k: nat, m: nat)
    requires SettlesAlone(slot, b, o, m)
    ensures CallsAlone(slot, b, o, k) <= CallsAlone(slot, b, o, m)
    ensures RepairsAlone(slot, b, o, k) <= RepairsAlone(slot, b, o, m)
  {
    if k <= m { CountsGrow(slot, b, o, k, m); } else { SettledStays(slot, b, o, m, k); }
  }

  /** The solo result does not depend on when one looks. */
  lemma SoloResultIsUnique(slot: Slot, b: Branch, o: Oracle, k: nat, m: nat)
    requires SettlesAlone(slot, b, o, k) && SettlesAlone(slot, b, o, m)
    ensures Alone(slot, b, o, k) == Alone(slot, b, o, m)
  {
    if k <= m { SettledStays(slot, b, o, k, m); } else { SettledStays(slot, b, o, m, k); }
  }

  // ---- a branch thread follows the solo run ----

  predicate IsInFlight(b: Branch) { IsUnsettled(b) && AtRow(b.walk) && Current(b.walk).state.InFlight? }

  predicate IsReady(b: Branch) { IsUnsettled(b) && AtRow(b.walk) && Current(b.walk).state.Ready? }

  /** Pending without a handle row to keep the handle in: the next look gives the branch up. */
  predicate IsDoomed(slot: Slot, b: Branch, o: Oracle) {
    IsInFlight(b) && Current(b.walk).trigger.Untriggered? && AnswerTo(slot, b, o).Awaiting?
  }

  predicate HasHandle(b: Branch) { AtRow(b.walk) && Current(b.walk).trigger.Checkpointed? }

  ghost predicate AtRest(slot: Slot, b: Branch, l: Branch, o: Oracle) {
    b == l && (IsInFlight(l) && !HasHandle(l) ==> IsDoomed(slot, l, o))
  }

  /** Row `b` with its thread at `t` is where the solo run is at `l`. */
  ghost predicate Follows(slot: Slot, b: Branch, t: Thread, l: Branch, o: Oracle) {
    match t
    case Entering => AtRest(slot, b, l, o)
    case Out(raised) => !raised && AtRest(slot, b, l, o)
    case Starting => b == l && IsReady(l)
    case Invoking => b == l && IsInFlight(l) && !HasHandle(l)
    case Querying => b == l && IsInFlight(l) && HasHandle(l)
    case Answered(r) => IsInFlight(l) && r == AnswerTo(slot, l, o) && b == l.(walk := Asked(l))
    case Leaving(r) =>
      b == l && IsUnsettled(l) && AtRow(l.walk) && Current(l.walk).state.Settled? && Current(l.walk).result == Some(r)
    case Blocking(uncertain) =>
      b == l && (if uncertain then IsDoomed(slot, l, o) else IsReady(l) && !WithinNodeCalls(Current(l.walk)))
  }

  /** The label answers as the oracle does, no poll raises, and no clock or cost limit interferes. */
  ghost predicate Obeys(s: State, l: Label, o: Oracle) {
    && (l.StartBranch? ==> !l.limit) && !l.FailBranch?
    && (l.AnswerBranch? && ValidBranchNode(s, l.slot) ==> l.result == AnswerTo(l.slot, s.branches[l.slot], o))
    && (l.PollBranch? && ValidBranchNode(s, l.slot) ==> l.result == AnswerTo(l.slot, s.branches[l.slot], o))
  }

  /** What one thread move does to its branch, its thread and the shared counters. */
  ghost predicate Steps(s: State, s': State, slot: Slot, l: Branch, o: Oracle) {
    && slot in s'.branches && slot in s'.threads
    && ((Follows(slot, s'.branches[slot], s'.threads[slot], l, o) && s'.calls == s.calls && s'.repairs == s.repairs)
        || (Follows(slot, s'.branches[slot], s'.threads[slot], Next(slot, l, o), o)
            && s'.calls == s.calls + StartsOne(l) && s'.repairs == s.repairs + RepairsOne(l)))
  }

  lemma LookFollows(s: State, slot: Slot, l: Branch, o: Oracle)
    requires HasBranchNode(s, slot) && IsGoing(s) && s.threads[slot].Entering?
    requires IsUnsettled(s.branches[slot]) && OneToken(s.branches[slot].walk)
    requires Follows(slot, s.branches[slot], s.threads[slot], l, o)
    ensures Steps(s, SetThread(s, slot, LookAtBranch(s, slot)), slot, l, o)
  {
    hide Next, AnswerTo;
  }

  lemma StartFollows(s: State, slot: Slot, l: Branch, o: Oracle)
    requires HasBranchNode(s, slot) && IsGoing(s) && s.threads[slot].Starting?
    requires Follows(slot, s.branches[slot], s.threads[slot], l, o)
    requires StartsOne(l) == 1 ==> s.calls < s.budget.maxExecutorCalls
    requires IsExternal(RowAt(s, slot).node.kind) || RowAt(s, slot).trigger.Untriggered?
    ensures Steps(s, CommitStart(s, slot, ChooseStart(s, slot, false)), slot, l, o)
  {
    hide AnswerTo;
  }

  lemma AnswerFollows(s: State, slot: Slot, r: Result, l: Branch, o: Oracle)
    requires HasBranchNode(s, slot) && s.threads[slot].Invoking? && r == AnswerTo(slot, s.branches[slot], o)
    requires Follows(slot, s.branches[slot], s.threads[slot], l, o)
    ensures Steps(s, SetThread(s, slot, Answered(r)).(invoked := s.invoked + [BranchAttempt(s, slot)]), slot, l, o)
  {
    hide AnswerTo, Next;
  }

  lemma PollFollows(s: State, slot: Slot, r: Result, l: Branch, o: Oracle)
    requires HasBranchNode(s, slot) && s.threads[slot].Querying? && r == AnswerTo(slot, s.branches[slot], o)
    requires Follows(slot, s.branches[slot], s.threads[slot], l, o)
    ensures Steps(s, PollBranchHandle(s, slot, r), slot, l, o)
  {
    hide AnswerTo, Next;
  }

  lemma CheckpointWithoutRowIsNothing(w: Walk, n: Id, h: string)
    requires n in w.rows && w.rows[n].trigger.Untriggered?
    ensures Checkpoint(w, n, h) == w
  {
    assert Checkpoint(w, n, h).rows == w.rows;
  }

  lemma PersistFollows(s: State, slot: Slot, r: Result, l: Branch, o: Oracle)
    requires HasBranchNode(s, slot) && IsGoing(s) && s.threads[slot] == Answered(r) && r != Awaiting("")
    requires Follows(slot, s.branches[slot], s.threads[slot], l, o)
    ensures Steps(s, PersistBranchResult(s, slot, r), slot, l, o)
  {
    hide Steps, Follows, PersistBranchResult;
    if r.Awaiting? { PendingFollows(s, slot, r, l, o); } else { ResultFollows(s, slot, r, l, o); }
  }

  lemma PendingFollows(s: State, slot: Slot, r: Result, l: Branch, o: Oracle)
    requires HasBranchNode(s, slot) && IsGoing(s) && s.threads[slot] == Answered(r) && r != Awaiting("") && r.Awaiting?
    requires Follows(slot, s.branches[slot], s.threads[slot], l, o)
    ensures Steps(s, PersistBranchResult(s, slot, r), slot, l, o)
  {
    hide AnswerTo;
    var b := s.branches[slot];
    if Current(l.walk).trigger.Untriggered? { CheckpointWithoutRowIsNothing(b.walk, NodeAt(s, slot), r.externalHandle); }
  }

  lemma ResultFollows(s: State, slot: Slot, r: Result, l: Branch, o: Oracle)
    requires HasBranchNode(s, slot) && IsGoing(s) && s.threads[slot] == Answered(r) && !r.Awaiting?
    requires Follows(slot, s.branches[slot], s.threads[slot], l, o)
    ensures Steps(s, PersistBranchResult(s, slot, r), slot, l, o)
  {
    hide AnswerTo;
  }

  lemma RouteFollows(s: State, slot: Slot, r: Result, l: Branch, o: Oracle)
    requires HasBranchNode(s, slot) && IsGoing(s) && s.threads[slot] == Leaving(r) && !r.Awaiting?
    requires EdgesHaveRows(s.branches[slot]) && Follows(slot, s.branches[slot], s.threads[slot], l, o)
    requires RepairsOne(l) == 1 ==> s.repairs < s.budget.maxRepairIterations
    ensures Steps(s, CommitBranchRoute(s, slot, ChooseBranchRoute(s, slot, r)), slot, l, o)
  {
    hide AnswerTo, FinishedBranchResult, EdgesHaveRows;
    ChosenBranchRouteIsAllowed(s, slot, r);
  }

  lemma BlockFollows(s: State, slot: Slot, l: Branch, o: Oracle)
    requires HasBranchNode(s, slot) && s.threads[slot].Blocking?
    requires Follows(slot, s.branches[slot], s.threads[slot], l, o)
    ensures Steps(s, CloseBranch(s, slot, BlockedResult(slot, s.threads[slot].uncertain)), slot, l, o)
  {
    hide AnswerTo, BlockedResult;
  }

  // ---- every thread move ----

  /** The shared counters allow the next solo step. */
  ghost predicate CanAfford(s: State, l: Branch) {
    && (StartsOne(l) == 1 ==> s.calls < s.budget.maxExecutorCalls)
    && (RepairsOne(l) == 1 ==> s.repairs < s.budget.maxRepairIterations)
  }

  lemma RowIsPlain(g: Plan, s: State, slot: Slot)
    requires Sound(g, s) && HasBranchNode(s, slot)
    ensures IsExternal(RowAt(s, slot).node.kind) || RowAt(s, slot).trigger.Untriggered?
  {
    hide SoundWalk, SoundPc, SoundThreads, ValidPlan, SoundBarrier, OneToken;
    assert SoundBranch(slot, s.branches[slot]);
  }

  lemma BranchMoveFollows(g: Plan, s: State, l: Label, local: Branch, o: Oracle)
    requires Sound(g, s) && IsGoing(s) && Enabled(g, s, l) && IsBranchMove(l) && Obeys(s, l, o) && NamesHandles(o)
    requires HasThread(s, l.slot) && Follows(l.slot, s.branches[l.slot], s.threads[l.slot], local, o)
    requires CanAfford(s, local) && ThreadsAreOpen(s.threads, s.branches)
    ensures Steps(s, Apply(g, s, l), l.slot, local, o)
  {
    hide Enabled, Apply;
    hide Sound, Steps, Fits, EdgesHaveRows, LookAtBranch, ChooseStart, CommitStart, PollBranchHandle, PersistBranchResult;
    hide ChooseBranchRoute, CommitBranchRoute, BlockedResult, CloseBranch, BranchAttempt, OneToken, SetThread, AnswerTo;
    hide StartsOne, RepairsOne, AtRest;
    BranchApplies(g, s, l);
    ThreadOfSteppingBranch(g, s, l.slot);
    if l.Look? { LookFollows(s, l.slot, local, o); }
    else if l.StartBranch? {
      RowIsPlain(g, s, l.slot);
      StartFollows(s, l.slot, local, o);
    }
    else if l.AnswerBranch? { AnswerFollows(s, l.slot, l.result, local, o); }
    else if l.PollBranch? { PollFollows(s, l.slot, l.result, local, o); }
    else if l.PersistBranch? {
      AnswersNameHandles(l.slot, local, o);
      PersistFollows(s, l.slot, s.threads[l.slot].result, local, o);
    }
    else if l.RouteBranch? { RouteFollows(s, l.slot, s.threads[l.slot].result, local, o); }
    else { BlockFollows(s, l.slot, local, o); }
  }

  lemma AnswersNameHandles(slot: Slot, l: Branch, o: Oracle)
    requires NamesHandles(o)
    ensures AtRow(l.walk) ==> AnswerTo(slot, l, o) != Awaiting("")
  {
  }

  // ---- the whole container ----

  ghost function CallMap(start: map<Slot, Branch>, o: Oracle, ks: map<Slot, nat>): map<Slot, nat>
    requires ks.Keys <= start.Keys
  {
    map slot | slot in ks :: CallsAlone(slot, start[slot], o, ks[slot])
  }

  ghost function RepairMap(start: map<Slot, Branch>, o: Oracle, ks: map<Slot, nat>): map<Slot, nat>
    requires ks.Keys <= start.Keys
  {
    map slot | slot in ks :: RepairsAlone(slot, start[slot], o, ks[slot])
  }

  /** `ks` has an entry for every branch of the container. */
  ghost predicate Covers(start: map<Slot, Branch>, n: Id, ks: map<Slot, nat>) {
    forall slot :: slot in ks <==> slot in start && slot.container == n
  }

  /** Solo runs that settle, with budget for all of them together. */
  ghost predicate IsAmple(start: map<Slot, Branch>, n: Id, o: Oracle, ms: map<Slot, nat>, budget: Budget, calls: nat, repairs: nat) {
    && Covers(start, n, ms)
    && (forall slot | slot in ms :: SettlesAlone(slot, start[slot], o, ms[slot]))
    && calls + Total(CallMap(start, o, ms)) <= budget.maxExecutorCalls
    && repairs + Total(RepairMap(start, o, ms)) <= budget.maxRepairIterations
  }

  ghost predicate FollowsAt(s: State, slot: Slot, l: Branch, o: Oracle) {
    && slot in s.branches
    && if slot in s.threads then Follows(slot, s.branches[slot], s.threads[slot], l, o)
       else AtRest(slot, s.branches[slot], l, o)
  }

  /** Branch by branch, the container is where the solo runs are after `ks` steps. */
  ghost predicate Tracks(s: State, n: Id, start: map<Slot, Branch>, o: Oracle, ks: map<Slot, nat>) {
    && s.branches.Keys == start.Keys && Covers(start, n, ks)
    && (forall slot | slot in ks :: FollowsAt(s, slot, Alone(slot, start[slot], o, ks[slot]), o))
  }

  ghost predicate Spent(s: State, start: map<Slot, Branch>, o: Oracle, ks: map<Slot, nat>, calls: nat, repairs: nat)
    requires ks.Keys <= start.Keys
  {
    && s.calls == calls + Total(CallMap(start, o, ks))
    && s.repairs == repairs + Total(RepairMap(start, o, ks))
  }

  ghost predicate IsPoolOf(g: Plan, s: State, n: Id) {
    Sound(g, s) && IsGoing(s) && ThreadsAreOpen(s.threads, s.branches) && (s.pc.Pooling? ==> s.pc.node == n)
  }

  lemma CoversIsWithin(start: map<Slot, Branch>, n: Id, ks: map<Slot, nat>)
    requires Covers(start, n, ks)
    ensures ks.Keys <= start.Keys
  {
  }

  /** What is spent so far leaves room for one more solo step. */
  lemma AmpleAffords(
    s: State, n: Id, start: map<Slot, Branch>, o: Oracle, ks: map<Slot, nat>, ms: map<Slot, nat>,
    calls: nat, repairs: nat, slot: Slot)
    requires Covers(start, n, ks) && ks.Keys <= start.Keys && slot in ks
    requires Spent(s, start, o, ks, calls, repairs) && IsAmple(start, n, o, ms, s.budget, calls, repairs)
    ensures CanAfford(s, Alone(slot, start[slot], o, ks[slot]))
  {
    hide Alone, StartsOne, RepairsOne, SettlesAlone;
    var ks' := ks[slot := ks[slot] + 1];
    assert ms.Keys == ks.Keys;
    forall j | j in ks'
      ensures CallMap(start, o, ks')[j] <= CallMap(start, o, ms)[j] && RepairMap(start, o, ks')[j] <= RepairMap(start, o, ms)[j]
    {
      CountsAreBounded(j, start[j], o, ks'[j], ms[j]);
    }
    TotalIsMonotone(CallMap(start, o, ms), CallMap(start, o, ks'));
    TotalIsMonotone(RepairMap(start, o, ms), RepairMap(start, o, ks'));
    OneMoreStep(start, o, ks, slot);
  }

  lemma OneMoreStep(start: map<Slot, Branch>, o: Oracle, ks: map<Slot, nat>, slot: Slot)
    requires ks.Keys <= start.Keys && slot in ks
    ensures ks[slot := ks[slot] + 1].Keys <= start.Keys
    ensures var ks', l := ks[slot := ks[slot] + 1], Alone(slot, start[slot], o, ks[slot]);
      && Total(CallMap(start, o, ks')) == Total(CallMap(start, o, ks)) + StartsOne(l)
      && Total(RepairMap(start, o, ks')) == Total(RepairMap(start, o, ks)) + RepairsOne(l)
  {
    hide Alone, StartsOne, RepairsOne, CallMap, RepairMap, Total, CallsAlone, RepairsAlone;
    var l := Alone(slot, start[slot], o, ks[slot]);
    CountsOfNext(slot, start[slot], o, ks[slot]);
    MapsOfNext(start, o, ks, slot);
    TotalAdds(CallMap(start, o, ks), CallMap(start, o, ks[slot := ks[slot] + 1]), slot, StartsOne(l));
    TotalAdds(RepairMap(start, o, ks), RepairMap(start, o, ks[slot := ks[slot] + 1]), slot, RepairsOne(l));
  }

  lemma MapsOfNext(start: map<Slot, Branch>, o: Oracle, ks: map<Slot, nat>, slot: Slot)
    requires ks.Keys <= start.Keys && slot in ks
    ensures ks[slot := ks[slot] + 1].Keys == ks.Keys
    ensures var c, c' := CallMap(start, o, ks), CallMap(start, o, ks[slot := ks[slot] + 1]);
      && c.Keys == ks.Keys && c'.Keys == ks.Keys
      && c[slot] == CallsAlone(slot, start[slot], o, ks[slot]) && c'[slot] == CallsAlone(slot, start[slot], o, ks[slot] + 1)
      && forall j | j in ks && j != slot :: c'[j] == c[j]
    ensures var r, r' := RepairMap(start, o, ks), RepairMap(start, o, ks[slot := ks[slot] + 1]);
      && r.Keys == ks.Keys && r'.Keys == ks.Keys
      && r[slot] == RepairsAlone(slot, start[slot], o, ks[slot]) && r'[slot] == RepairsAlone(slot, start[slot], o, ks[slot] + 1)
      && forall j | j in ks && j != slot :: r'[j] == r[j]
  {
    hide CallsAlone, RepairsAlone;
  }

  lemma CountsOfNext(slot: Slot, b: Branch, o: Oracle, k: nat)
    ensures CallsAlone(slot, b, o, k + 1) == CallsAlone(slot, b, o, k) + StartsOne(Alone(slot, b, o, k))
    ensures RepairsAlone(slot, b, o, k + 1) == RepairsAlone(slot, b, o, k) + RepairsOne(Alone(slot, b, o, k))
  {
    hide Alone, StartsOne, RepairsOne;
  }

  lemma OtherSlotFollows(s: State, s': State, slot: Slot, other: Slot, l: Branch, o: Oracle)
    requires OnlySlot(s, s', slot) && other != slot && FollowsAt(s, other, l, o)
    ensures FollowsAt(s', other, l, o)
  {
    hide Follows, AtRest;
  }

  lemma ThreadMoveTracks(
    g: Plan, s: State, l: Label, n: Id, start: map<Slot, Branch>, o: Oracle, ks: map<Slot, nat>, ms: map<Slot, nat>,
    calls: nat, repairs: nat) returns (ks': map<Slot, nat>)
    requires IsPoolOf(g, s, n) && Enabled(g, s, l) && IsBranchMove(l) && Obeys(s, l, o) && NamesHandles(o)
    requires Tracks(s, n, start, o, ks) && ks.Keys <= start.Keys && Spent(s, start, o, ks, calls, repairs)
    requires IsAmple(start, n, o, ms, s.budget, calls, repairs)
    ensures var s' := Apply(g, s, l);
      && Tracks(s', n, start, o, ks') && ks'.Keys <= start.Keys && Spent(s', start, o, ks', calls, repairs)
      && s'.budget == s.budget
  {
    hide Sound, Enabled, Apply, OnlySlot, Follows, AtRest, Alone, Obeys, NamesHandles, IsAmple, CanAfford, Next, StartsOne, RepairsOne;
    hide FollowsAt, CallMap, RepairMap;
    var s', slot := Apply(g, s, l), l.slot;
    BranchMoveTouches(g, s, l);
    ThreadsAreInside(g, s);
    var local := Alone(slot, start[slot], o, ks[slot]);
    AmpleAffords(s, n, start, o, ks, ms, calls, repairs, slot);
    ThreadFollows(s, slot, local, o);
    BranchMoveFollows(g, s, l, local, o);
    SlotMoveKeepsKeys(s, s', slot);
    OneMoreStep(start, o, ks, slot);
    var next := ks[slot := ks[slot] + 1];
    NextIsAlone(slot, start[slot], o, ks[slot]);
    if Follows(slot, s'.branches[slot], s'.threads[slot], local, o) && s'.calls == s.calls && s'.repairs == s.repairs {
      ks' := ks;
    } else {
      ks' := next;
    }
    forall j | j in ks' ensures FollowsAt(s', j, Alone(j, start[j], o, ks'[j]), o) {
      if j != slot { OtherSlotFollows(s, s', slot, j, Alone(j, start[j], o, ks[j]), o); }
      else { FollowsWithThread(s', slot, Alone(j, start[j], o, ks'[j]), o); }
    }
  }

  lemma NextIsAlone(slot: Slot, b: Branch, o: Oracle, k: nat)
    ensures Alone(slot, b, o, k + 1) == Next(slot, Alone(slot, b, o, k), o)
  {
  }

  lemma ThreadFollows(s: State, slot: Slot, l: Branch, o: Oracle)
    requires FollowsAt(s, slot, l, o) && slot in s.threads
    ensures slot in s.branches && Follows(slot, s.branches[slot], s.threads[slot], l, o)
  {
    hide Follows;
  }

  lemma FollowsWithThread(s: State, slot: Slot, l: Branch, o: Oracle)
    requires slot in s.branches && slot in s.threads && Follows(slot, s.branches[slot], s.threads[slot], l, o)
    ensures FollowsAt(s, slot, l, o)
  {
    hide Follows;
  }

  lemma SlotMoveKeepsKeys(s: State, s': State, slot: Slot)
    requires OnlySlot(s, s', slot)
    ensures s'.branches.Keys == s.branches.Keys && s'.threads.Keys == s.threads.Keys && s'.budget == s.budget
    ensures s'.status == s.status && s'.barrier == s.barrier && s'.pc == s.pc
  {
  }

  lemma RestFollows(slot: Slot, b: Branch, l: Branch, o: Oracle)
    requires AtRest(slot, b, l, o)
    ensures Follows(slot, b, Entering, l, o)
  {
    hide AtRest;
  }

  lemma OutIsAtRest(slot: Slot, b: Branch, t: Thread, l: Branch, o: Oracle)
    requires Follows(slot, b, t, l, o) && t.Out?
    ensures AtRest(slot, b, l, o) && t != Out(true)
  {
    hide AtRest;
  }

  /** Opening and closing a pool moves no branch. */
  lemma PoolTracks(g: Plan, s: State, l: Label, n: Id, start: map<Slot, Branch>, o: Oracle, ks: map<Slot, nat>)
    requires IsPoolOf(g, s, n) && Enabled(g, s, l) && (l.ClosePool? || l.OpenPool?)
    requires Tracks(s, n, start, o, ks)
    ensures var s' := Apply(g, s, l);
      && Tracks(s', n, start, o, ks)
      && s'.calls == s.calls && s'.repairs == s.repairs && s'.budget == s.budget && IsGoing(s')
      && (s'.pc.Pooling? ==> l.OpenPool? && s'.pc.node == l.node) && ThreadsAreOpen(s'.threads, s'.branches)
  {
    hide Sound, Alone, Follows, AtRest, AfterPool, IsScheduled, IsAdmission, ThreadsAreOpen;
    var s' := Apply(g, s, l);
    ThreadsAreInside(g, s);
    if l.ClosePool? {
      NoThreadsAreOpen(s'.branches);
      AfterPoolKeepsTables(s, s.pc.node, s.pc.first, IsStopRead(s, l));
      AfterPoolHasNoThreads(s, s.pc.node, s.pc.first, IsStopRead(s, l));
      AfterPoolIsQuiet(s, s.pc.node, s.pc.first, IsStopRead(s, l));
      forall slot | slot in ks ensures FollowsAt(s', slot, Alone(slot, start[slot], o, ks[slot]), o) {
        if slot in s.threads { OutIsAtRest(slot, s.branches[slot], s.threads[slot], Alone(slot, start[slot], o, ks[slot]), o); }
      }
    } else {
      NoThreadsYet(g, s);
      OpenThreadsAreOpen(s.branches, l.node, Limit(s.top.rows[l.node].node.kind), l.pool);
      forall slot | slot in ks ensures FollowsAt(s', slot, Alone(slot, start[slot], o, ks[slot]), o) {
        RestFollows(slot, s.branches[slot], Alone(slot, start[slot], o, ks[slot]), o);
      }
    }
  }

  // ---- whole runs of a container ----

  ghost predicate OnlyPool(ls: seq<Label>, n: Id) { forall l | l in ls :: IsPoolMove(l) && (l.OpenPool? ==> l.node == n) }

  ghost predicate AllObey(g: Plan, s: State, ls: seq<Label>, o: Oracle)
    requires IsRun(g, s, ls)
    decreases |ls|
  {
    ls == [] || (Obeys(s, ls[0], o) && AllObey(g, Apply(g, s, ls[0]), ls[1..], o))
  }

  lemma {:induction false} RunTracks(
    g: Plan, s: State, ls: seq<Label>, n: Id, start: map<Slot, Branch>, o: Oracle, ks: map<Slot, nat>, ms: map<Slot, nat>,
    calls: nat, repairs: nat) returns (ks': map<Slot, nat>)
    requires IsPoolOf(g, s, n) && IsRun(g, s, ls) && OnlyPool(ls, n) && AllObey(g, s, ls, o) && NamesHandles(o)
    requires Tracks(s, n, start, o, ks) && ks.Keys <= start.Keys && Spent(s, start, o, ks, calls, repairs)
    requires IsAmple(start, n, o, ms, s.budget, calls, repairs)
    ensures Tracks(Exec(g, s, ls), n, start, o, ks')
    decreases |ls|
  {
    hide Sound, Enabled, Apply, Tracks, Spent, IsAmple, Obeys, NamesHandles, ThreadsAreOpen;
    if ls == [] { ks' := ks; }
    else {
      var s1, l := Apply(g, s, ls[0]), ls[0];
      StepKeepsSound(g, s, l);
      if IsBranchMove(l) {
        ks' := ThreadMoveTracks(g, s, l, n, start, o, ks, ms, calls, repairs);
        BranchMoveTouches(g, s, l);
        BranchMoveStaysOpen(g, s, l);
        SlotMoveKeepsKeys(s, s1, l.slot);
      } else {
        PoolTracks(g, s, l, n, start, o, ks);
        SpentIsKept(s, s1, start, o, ks, calls, repairs);
        ks' := ks;
      }
      ks' := RunTracks(g, s1, ls[1..], n, start, o, ks', ms, calls, repairs);
    }
  }

  lemma SpentIsKept(s: State, s': State, start: map<Slot, Branch>, o: Oracle, ks: map<Slot, nat>, calls: nat, repairs: nat)
    requires ks.Keys <= start.Keys && Spent(s, start, o, ks, calls, repairs)
    requires s'.calls == s.calls && s'.repairs == s.repairs
    ensures Spent(s', start, o, ks, calls, repairs)
  {
    hide CallMap, RepairMap, Total;
  }

  /** No branch of the container was cut off in the middle of a call. */
  ghost predicate IsClean(bs: map<Slot, Branch>, n: Id) {
    forall slot | slot in bs && slot.container == n :: IsInFlight(bs[slot]) ==> HasHandle(bs[slot])
  }

  ghost function NoSteps(bs: map<Slot, Branch>, n: Id): map<Slot, nat> { map slot | slot in bs && slot.container == n :: 0 }

  lemma {:induction false} NothingSpent(m: map<Slot, nat>)
    requires forall k | k in m :: m[k] == 0
    ensures Total(m) == 0
    decreases |m|
  {
    if m != map[] {
      var k :| k in m;
      TotalSplits(m, k);
      NothingSpent(m - {k});
    }
  }

  lemma TracksFromTheStart(s: State, n: Id, o: Oracle)
    requires s.threads == map[] && IsClean(s.branches, n)
    ensures var ks := NoSteps(s.branches, n);
      Tracks(s, n, s.branches, o, ks) && ks.Keys <= s.branches.Keys && Spent(s, s.branches, o, ks, s.calls, s.repairs)
  {
    var ks := NoSteps(s.branches, n);
    NothingSpent(CallMap(s.branches, o, ks));
    NothingSpent(RepairMap(s.branches, o, ks));
  }

  /**
   Whatever the interleaving and the limit: once the container's branches are settled, each is
   exactly what its solo run ends in.
   */
  lemma EveryScheduleEndsLikeSolo(g: Plan, s: State, ls: seq<Label>, n: Id, o: Oracle, ms: map<Slot, nat>)
    requires IsPoolOf(g, s, n) && s.threads == map[] && IsClean(s.branches, n) && NamesHandles(o)
    requires IsRun(g, s, ls) && OnlyPool(ls, n) && AllObey(g, s, ls, o)
    requires IsAmple(s.branches, n, o, ms, s.budget, s.calls, s.repairs)
    requires Exec(g, s, ls).threads == map[] && UnsettledOf(Exec(g, s, ls).branches, n) == {}
    ensures Exec(g, s, ls).branches.Keys == s.branches.Keys && Covers(s.branches, n, ms)
    ensures forall slot | slot in ms :: Exec(g, s, ls).branches[slot] == Alone(slot, s.branches[slot], o, ms[slot])
  {
    hide Sound, Alone, IsRun, Exec, AllObey, NamesHandles, Spent, IsClean, Follows;
    TracksFromTheStart(s, n, o);
    var ks := RunTracks(g, s, ls, n, s.branches, o, NoSteps(s.branches, n), ms, s.calls, s.repairs);
    var s' := Exec(g, s, ls);
    forall slot | slot in ms ensures s'.branches[slot] == Alone(slot, s.branches[slot], o, ms[slot]) {
      assert slot in ks && FollowsAt(s', slot, Alone(slot, s.branches[slot], o, ks[slot]), o);
      assert slot !in UnsettledOf(s'.branches, n);
      SoloResultIsUnique(slot, s.branches[slot], o, ks[slot], ms[slot]);
    }
  }

  /** The container's branches as their solo runs leave them. */
  ghost function SoloBranches(start: map<Slot, Branch>, o: Oracle, ms: map<Slot, nat>): map<Slot, Branch>
    requires ms.Keys <= start.Keys
  {
    map slot | slot in ms :: Alone(slot, start[slot], o, ms[slot])
  }

  lemma ResultsOfContainer(bs: map<Slot, Branch>, bs': map<Slot, Branch>, n: Id)
    requires forall slot | slot in bs && slot.container == n :: slot in bs' && bs'[slot] == bs[slot] && bs[slot].result.Some?
    requires forall slot | slot in bs' && slot.container == n :: slot in bs
    ensures ResultsOf(bs, n) == ResultsOf(bs', n)
  {
    var a, b := BranchIdsOf(bs, n), BranchIdsOf(bs', n);
    forall id ensures id in a <==> id in b {
      if id in a { assert Slot(n, id) in bs; }
      if id in b { assert Slot(n, id) in bs'; }
    }
    assert a == b;
    var ids := Ordering.Ascending(a);
    forall i | 0 <= i < |ids| ensures ResultsOf(bs, n)[i] == ResultsOf(bs', n)[i] { assert ids[i] in a; }
  }

  /** The answer of a parallel node is the combination of the solo results, under every schedule. */
  lemma AnswerIsCombinedSolo(g: Plan, s: State, ls: seq<Label>, n: Id, o: Oracle, ms: map<Slot, nat>)
    requires IsPoolOf(g, s, n) && s.threads == map[] && IsClean(s.branches, n) && NamesHandles(o)
    requires IsRun(g, s, ls) && OnlyPool(ls, n) && AllObey(g, s, ls, o)
    requires IsAmple(s.branches, n, o, ms, s.budget, s.calls, s.repairs)
    requires HasStepped(Exec(g, s, ls), n) && Exec(g, s, ls).top.rows[n].node.kind.Parallel?
    ensures ms.Keys <= s.branches.Keys
    ensures var solo := SoloBranches(s.branches, o, ms);
      && AllClosed(solo, n) && ResultsOf(solo, n) != []
      && Exec(g, s, ls).pc == Holding(n, Joined(Combine(n, ResultsOf(solo, n))))
      && ValidParallelResult(Combine(n, ResultsOf(solo, n)))
  {
    hide Sound, Alone, IsRun, Exec, AllObey, NamesHandles, IsClean, IsAmple, Combine, ValidParallelResult, ResultsOf;
    hide UnsettledOf, SoundBranches, AllClosed, BranchIdsOf;
    var s' := Exec(g, s, ls);
    SteppedHasBranches(s', n);
    EveryScheduleEndsLikeSolo(g, s, ls, n, o, ms);
    CoversIsWithin(s.branches, n, ms);
    var solo := SoloBranches(s.branches, o, ms);
    RunKeepsSound(g, s, ls);
    SoundHasBranches(g, s');
    SoloIsListed(s'.branches, solo, n);
    CombineIsValid(n, ResultsOf(solo, n));
  }

  lemma SteppedHasBranches(s: State, n: Id)
    requires HasStepped(s, n) && s.top.rows[n].node.kind.Parallel?
    ensures BranchIdsOf(s.branches, n) != {} && UnsettledOf(s.branches, n) == {}
    ensures forall slot | slot in s.branches && slot.container == n :: s.branches[slot].result.Some?
    ensures s.pc == Holding(n, Joined(Combine(n, ResultsOf(s.branches, n))))
  {
    hide ResultsOf, Combine;
  }

  lemma SoloIsListed(bs: map<Slot, Branch>, solo: map<Slot, Branch>, n: Id)
    requires SoundBranches(bs) && UnsettledOf(bs, n) == {} && BranchIdsOf(bs, n) != {}
    requires forall slot :: slot in solo <==> slot in bs && slot.container == n
    requires forall slot | slot in solo :: bs[slot] == solo[slot]
    ensures AllClosed(bs, n) && AllClosed(solo, n) && ResultsOf(solo, n) == ResultsOf(bs, n) && IsListing(ResultsOf(solo, n))
  {
    hide ResultsOf, IsListing, SoundBranches;
    ClosedBranchesAreListed(bs, n);
    ResultsOfContainer(bs, solo, n);
    var id :| id in BranchIdsOf(bs, n);
    assert Slot(n, id) in solo;
    assert id in BranchIdsOf(solo, n);
  }

  /** Two schedules, even of graphs that differ in max_concurrency, give the same answer. */
  lemma AllSchedulesAgree(
    g: Plan, s: State, ls: seq<Label>, g': Plan, t: State, ls': seq<Label>, n: Id, o: Oracle, ms: map<Slot, nat>)
    requires s.branches == t.branches && IsClean(s.branches, n) && NamesHandles(o)
    requires IsPoolOf(g, s, n) && s.threads == map[] && IsRun(g, s, ls) && OnlyPool(ls, n) && AllObey(g, s, ls, o)
    requires IsPoolOf(g', t, n) && t.threads == map[] && IsRun(g', t, ls') && OnlyPool(ls', n) && AllObey(g', t, ls', o)
    requires IsAmple(s.branches, n, o, ms, s.budget, s.calls, s.repairs)
    requires IsAmple(t.branches, n, o, ms, t.budget, t.calls, t.repairs)
    requires HasStepped(Exec(g, s, ls), n) && Exec(g, s, ls).top.rows[n].node.kind.Parallel?
    requires HasStepped(Exec(g', t, ls'), n) && Exec(g', t, ls').top.rows[n].node.kind.Parallel?
    ensures Exec(g, s, ls).pc == Exec(g', t, ls').pc
  {
    hide Sound, Alone, IsRun, Exec, AllObey, NamesHandles, IsClean, IsAmple, Combine, ValidParallelResult, ResultsOf, HasStepped;
    AnswerIsCombinedSolo(g, s, ls, n, o, ms);
    AnswerIsCombinedSolo(g', t, ls', n, o, ms);
  }

  // ---- some schedule completes ----

  /** Every branch node gets an answer that fits it and is not pending. */
  ghost predicate Answers(bs: map<Slot, Branch>, o: Oracle) {
    forall slot, m: Node, attempt, poll | slot in bs && m in bs[slot].plan.nodes ::
      Fits(m.kind, o(slot, m.id, attempt, poll)) && !o(slot, m.id, attempt, poll).Awaiting?
  }

  lemma AnswerFits(g: Plan, s: State, slot: Slot, o: Oracle)
    requires Sound(g, s) && HasBranchNode(s, slot) && Answers(s.branches, o)
    ensures var r := AnswerTo(slot, s.branches[slot], o); Fits(RowAt(s, slot).node.kind, r) && !r.Awaiting?
  {
    hide SoundPc, SoundThreads, ValidPlan, SoundBarrier, OneToken, Fits;
    var b := s.branches[slot];
    assert SoundBranch(slot, b);
    assert Current(b.walk).node in b.plan.nodes && Current(b.walk).node.id == b.walk.at.value;
  }

  lemma ThreadCanObey(g: Plan, s: State, slot: Slot, o: Oracle)
    requires Sound(g, s) && ThreadsAreOpen(s.threads, s.branches) && slot in s.threads && !s.threads[slot].Out? && Answers(s.branches, o)
    ensures exists l :: IsBranchMove(l) && IsAnswering(l) && Obeys(s, l, o) && Enabled(g, s, l)
  {
    hide Sound, Fits, EdgesHaveRows, OneToken, SoundBranch, Answers;
    ThreadOfSteppingBranch(g, s, slot);
    var t := s.threads[slot];
    if t.Invoking? || t.Querying? {
      AnswerFits(g, s, slot, o);
      var r := AnswerTo(slot, s.branches[slot], o);
      var l := if t.Invoking? then AnswerBranch(slot, r) else PollBranch(slot, r);
      assert Obeys(s, l, o) && Enabled(g, s, l);
    } else if t.Leaving? {
      RouteBranchKeepsSound(g, s, slot);
      assert Obeys(s, RouteBranch(slot), o) && Enabled(g, s, RouteBranch(slot));
    } else {
      var l := if t.Entering? then Look(slot) else if t.Starting? then StartBranch(slot, false)
               else if t.Answered? then PersistBranch(slot) else BlockBranch(slot);
      assert Obeys(s, l, o) && Enabled(g, s, l);
    }
  }

  lemma StepCanObey(g: Plan, s: State, n: Id, o: Oracle)
    requires IsStepping(g, s, n) && IsOrdered(g, s.branches) && Answers(s.branches, o)
    ensures exists l :: IsPoolMove(l) && IsAnswering(l) && (l.OpenPool? ==> l.node == n) && Obeys(s, l, o) && Enabled(g, s, l)
  {
    hide Sound, HasBranches, IsOrdered, IsBusyAt, Answers;
    if s.pc.Pooling? {
      if slot :| slot in s.threads && !s.threads[slot].Out? {
        ThreadCanObey(g, s, slot, o);
        hide Enabled;
        var l :| IsBranchMove(l) && IsAnswering(l) && Obeys(s, l, o) && Enabled(g, s, l);
        assert IsPoolMove(l);
      } else {
        PoolCanClose(g, s, n);
        assert Obeys(s, ClosePool, o);
      }
    } else {
      hide Enabled;
      NextStepCanBegin(g, s, n);
      var pool :| Enabled(g, s, OpenPool(n, pool));
      assert IsPoolMove(OpenPool(n, pool)) && Obeys(s, OpenPool(n, pool), o);
    }
  }

  lemma SamePlansAnswer(g: Plan, bs: map<Slot, Branch>, bs': map<Slot, Branch>, o: Oracle)
    requires SamePlans(bs, bs')
    ensures Answers(bs, o) ==> Answers(bs', o)
    ensures IsOrdered(g, bs) ==> IsOrdered(g, bs')
  {
    hide Fits;
  }

  /** Whatever fitting answers there are, some schedule with these answers brings the container to its end. */
  lemma {:induction false} SomeScheduleCompletes(g: Plan, s: State, n: Id, o: Oracle) returns (ls: seq<Label>)
    requires IsStepping(g, s, n) && IsOrdered(g, s.branches) && Answers(s.branches, o)
    ensures IsRun(g, s, ls) && OnlyPool(ls, n) && AllObey(g, s, ls, o) && HasStepped(Exec(g, s, ls), n)
    decreases Measure(s, n)
  {
    hide IsStepping, Measure, Enabled, Apply, HasStepped, Sound, Answers, IsOrdered, Obeys, IsAnswering;
    StepCanObey(g, s, n, o);
    var l :| IsPoolMove(l) && IsAnswering(l) && (l.OpenPool? ==> l.node == n) && Obeys(s, l, o) && Enabled(g, s, l);
    var s' := Apply(g, s, l);
    PoolMoveSteps(g, s, l, n);
    if HasStepped(s', n) {
      ls := [l];
      assert IsRun(g, s', []) && ls[1..] == [];
    } else {
      SteppingIsSound(g, s, n);
      StepKeepsSlots(g, s, l);
      SamePlansAnswer(g, s.branches, s'.branches, o);
      var rest := SomeScheduleCompletes(g, s', n, o);
      ls := [l] + rest;
      assert ls[1..] == rest;
    }
  }

  lemma SteppingIsSound(g: Plan, s: State, n: Id)
    requires IsStepping(g, s, n)
    ensures Sound(g, s)
  {
  }
}
