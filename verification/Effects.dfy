/**
 What a single label may touch. A branch thread leaves the run's own row alone; only a start
 or a route changes an attempt number, a traversal count or a budget counter; and every label
 appends at most one event. The invariants of whole runs are built on these frames.
 */
module Effects {
  import opened Options
  import opened Graphs
  import opened Results
  import opened Walks
  import opened Reports
  import opened Machine
  import opened Tokens

  /** The runs row, the run's own nodes and everything a process remembers about the serial loop. */
  ghost predicate SameRun(s: State, s': State) {
    && s'.status == s.status && s'.barrier == s.barrier && s'.ending == s.ending && s'.report == s.report
    && s'.freezing == s.freezing && s'.sweeping == s.sweeping && s'.top == s.top && s'.pc == s.pc
    && s'.budget == s.budget && s'.base == s.base && s'.generation == s.generation
  }

  /** The same rows with the same subgraphs and the same branch order. */
  ghost predicate SamePlans(bs: map<Slot, Branch>, bs': map<Slot, Branch>) {
    && bs'.Keys == bs.Keys
    && forall slot | slot in bs :: bs'[slot].plan == bs[slot].plan && bs'[slot].order == bs[slot].order
  }

  /** Only the branch and the thread of one slot. */
  ghost predicate OnlySlot(s: State, s': State, slot: Slot) {
    && SameRun(s, s')
    && s'.branches.Keys == s.branches.Keys && s'.threads.Keys == s.threads.Keys
    && SamePlans(s.branches, s'.branches)
    && (forall other | other in s.branches && other != slot :: s'.branches[other] == s.branches[other])
    && (forall other | other in s.threads && other != slot :: s'.threads[other] == s.threads[other])
  }

  lemma CommitStartTouches(s: State, slot: Slot, c: StartChoice)
    requires HasBranchNode(s, slot)
    ensures OnlySlot(s, CommitStart(s, slot, c), slot)
  {
    hide Begin;
  }

  lemma PersistTouches(s: State, slot: Slot, r: Result)
    requires HasBranchNode(s, slot)
    ensures OnlySlot(s, PersistBranchResult(s, slot, r), slot)
  {
    hide Settle, Checkpoint;
  }

  lemma RouteTouches(s: State, slot: Slot, c: BranchChoice)
    requires HasThread(s, slot)
    requires c.Walks? ==> c.edge.from in s.branches[slot].walk.rows && c.edge.to in s.branches[slot].walk.rows
    ensures OnlySlot(s, CommitBranchRoute(s, slot, c), slot)
  {
    hide Advance;
  }

  /** What an open edge allows. */
  lemma ChosenRouteIsAllowed(g: Plan, s: State, n: Id)
    requires ValidRoute(g, s, n)
    ensures var c := ChooseRoute(g, s, n);
      c.Moves? ==>
        && c.edge.from in s.top.rows && c.edge.to in s.top.rows
        && (c.edge.maxIterations.Some? ==> Count(s.top.counts, c.edge.from, c.edge.to) < c.edge.maxIterations.value)
        && (c.repair ==> s.repairs < s.budget.maxRepairIterations)
  {
    var row := s.top.rows[n];
    SelectIsFirst(g.edges, s.top.counts, n, row.result.value, row.attempts);
  }

  /** A route is held exactly behind a barrier; else it takes the first open edge, unless that is a repair too many, or ends the run. */
  lemma RouteIsDecided(g: Plan, s: State, n: Id)
    requires ValidRoute(g, s, n)
    ensures var row := s.top.rows[n];
      var r := row.result.value;
      var spent := s.repairs >= s.budget.maxRepairIterations || !WithinNodeRepairs(row);
      match ChooseRoute(g, s, n)
      case Held => s.barrier != NoBarrier
      case Moves(e, repair) =>
        && s.barrier == NoBarrier && IsSelection(g.edges, s.top.counts, n, r, row.attempts, Some(e))
        && (repair <==> e.maxIterations.Some? && StatusText(r) == "failed") && !(repair && spent)
      case Ends(x) =>
        && s.barrier == NoBarrier
        && if IsSelection(g.edges, s.top.counts, n, r, row.attempts, None) then x == EndingFor(r)
           else x == EXHAUSTED && spent && exists e :: IsSelection(g.edges, s.top.counts, n, r, row.attempts, Some(e)) && IsRepair(e, r)
  {
    hide IsSelection, EndingFor;
    var row := s.top.rows[n];
    var selected := Select(g.edges, s.top.counts, n, row.result.value, row.attempts);
    SelectIsFirst(g.edges, s.top.counts, n, row.result.value, row.attempts);
    if IsSelection(g.edges, s.top.counts, n, row.result.value, row.attempts, None) {
      SelectionIsUnique(g.edges, s.top.counts, n, row.result.value, row.attempts, selected, None);
    }
  }

  /** A branch's route closes the branch exactly if no edge is open; else a barrier keeps it, a repair too many blocks it, or it walks on. */
  lemma BranchRouteIsDecided(s: State, slot: Slot, r: Result)
    requires HasBranchNode(s, slot) && !r.Awaiting?
    ensures var b := s.branches[slot];
      var spent := s.repairs >= s.budget.maxRepairIterations;
      match ChooseBranchRoute(s, slot, r)
      case Closes(x) =>
        && IsSelection(b.plan.edges, b.walk.counts, NodeAt(s, slot), r, RowAt(s, slot).attempts, None)
        && x.branchId == slot.branch && x.outcome == OutcomeOf(r) && x.error == ErrorOf(r)
      case Stays =>
        && s.barrier != NoBarrier
        && exists e :: IsSelection(b.plan.edges, b.walk.counts, NodeAt(s, slot), r, RowAt(s, slot).attempts, Some(e))
      case Blocks =>
        && s.barrier == NoBarrier && spent
        && exists e :: IsSelection(b.plan.edges, b.walk.counts, NodeAt(s, slot), r, RowAt(s, slot).attempts, Some(e)) && IsRepair(e, r)
      case Walks(e, repair) =>
        && s.barrier == NoBarrier && IsSelection(b.plan.edges, b.walk.counts, NodeAt(s, slot), r, RowAt(s, slot).attempts, Some(e))
        && (repair <==> e.maxIterations.Some? && StatusText(r) == "failed") && !(repair && spent)
  {
    hide IsSelection;
    var b := s.branches[slot];
    SelectIsFirst(b.plan.edges, b.walk.counts, NodeAt(s, slot), r, RowAt(s, slot).attempts);
  }

  lemma ChosenBranchRouteIsAllowed(s: State, slot: Slot, r: Result)
    requires HasBranchNode(s, slot) && !r.Awaiting? && EdgesHaveRows(s.branches[slot])
    ensures var c, b := ChooseBranchRoute(s, slot, r), s.branches[slot];
      c.Walks? ==>
        && c.edge.from in b.walk.rows && c.edge.to in b.walk.rows
        && (c.edge.maxIterations.Some? ==> Count(b.walk.counts, c.edge.from, c.edge.to) < c.edge.maxIterations.value)
        && (c.repair ==> s.repairs < s.budget.maxRepairIterations)
  {
    hide FinishedBranchResult;
    var b := s.branches[slot];
    SelectIsFirst(b.plan.edges, b.walk.counts, NodeAt(s, slot), r, RowAt(s, slot).attempts);
  }

  lemma PollTouches(s: State, slot: Slot, r: Result)
    requires HasBranchNode(s, slot)
    ensures OnlySlot(s, PollBranchHandle(s, slot, r), slot)
  {
    hide Polled;
  }

  lemma CloseTouches(s: State, slot: Slot, r: BranchResult)
    requires HasThread(s, slot)
    ensures OnlySlot(s, CloseBranch(s, slot, r), slot)
  {
  }

  lemma ThreadTouches(s: State, slot: Slot, t: Thread)
    requires HasThread(s, slot)
    ensures OnlySlot(s, SetThread(s, slot, t), slot)
  {
  }

  lemma BranchMoveTouches(g: Plan, s: State, l: Label)
    requires Sound(g, s) && Enabled(g, s, l) && IsBranchMove(l)
    ensures HasThread(s, l.slot) && OnlySlot(s, Apply(g, s, l), l.slot)
  {
    hide Enabled, Apply;
    hide Sound, OnlySlot, LookAtBranch, ChooseStart, ChooseBranchRoute, CommitStart, PersistBranchResult, CommitBranchRoute;
    hide PollBranchHandle, CloseBranch, BlockedResult, Fits, EdgesHaveRows, SetThread, ValidBranchNode;
    BranchApplies(g, s, l);
    var slot := l.slot;
    if l.Look? { ThreadTouches(s, slot, LookAtBranch(s, slot)); }
    else if l.StartBranch? { CommitStartTouches(s, slot, ChooseStart(s, slot, l.limit)); }
    else if l.AnswerBranch? { AnswerTouches(s, slot, l.result); }
    else if l.PollBranch? { PollTouches(s, slot, l.result); }
    else if l.FailBranch? { ThreadTouches(s, slot, Out(true)); }
    else if l.PersistBranch? { PersistTouches(s, slot, s.threads[slot].result); }
    else if l.RouteBranch? {
      ChosenBranchRouteIsAllowed(s, slot, s.threads[slot].result);
      RouteTouches(s, slot, ChooseBranchRoute(s, slot, s.threads[slot].result));
    }
    else { CloseTouches(s, slot, BlockedResult(slot, s.threads[slot].uncertain)); }
  }

  lemma AnswerTouches(s: State, slot: Slot, r: Result)
    requires HasBranchNode(s, slot)
    ensures OnlySlot(s, SetThread(s, slot, Answered(r)).(invoked := s.invoked + [BranchAttempt(s, slot)]), slot)
  {
  }

  // ---- what keeps the tallies ----

  /** The same rows with the same attempt numbers and the same traversal counts. */
  ghost predicate SameTally(w: Walk, w': Walk) {
    && w'.counts == w.counts && w'.rows.Keys == w.rows.Keys
    && forall id | id in w.rows :: w'.rows[id].attempts == w.rows[id].attempts && w'.rows[id].node == w.rows[id].node
  }

  ghost predicate SameTallies(bs: map<Slot, Branch>, bs': map<Slot, Branch>) {
    && bs'.Keys == bs.Keys
    && forall slot | slot in bs :: SameTally(bs[slot].walk, bs'[slot].walk) && bs'[slot].plan == bs[slot].plan
  }

  /** At most one event more, and not the start of an attempt or a traversal. */
  ghost predicate AddsOutcome(h: seq<Event>, h': seq<Event>) {
    h' == h || (|h'| == |h| + 1 && h'[..|h|] == h && (h'[|h|].Ended? || h'[|h|].Finished?))
  }

  ghost predicate SameBooks(s: State, s': State) {
    && s'.calls == s.calls && s'.repairs == s.repairs && s'.budget == s.budget
    && s'.base == s.base && s'.generation == s.generation
  }

  ghost predicate Quiet(s: State, s': State) {
    && SameBooks(s, s') && AddsOutcome(s.history, s'.history)
    && SameTally(s.top, s'.top) && SameTallies(s.branches, s'.branches)
  }

  lemma SameTallyIsReflexive(w: Walk, bs: map<Slot, Branch>)
    ensures SameTally(w, w) && SameTallies(bs, bs)
  {
  }

  lemma FinishIsQuiet(s: State, e: Ending)
    ensures Quiet(s, FinishRun(s, e))
  {
  }

  lemma CancelIsQuiet(bs: map<Slot, Branch>, includeActive: bool)
    ensures SameTallies(bs, CancelBranches(bs, includeActive))
  {
  }

  lemma CancelRunIsQuiet(s: State)
    ensures Quiet(s, FinishRun(s.(branches := CancelBranches(s.branches, true)), CANCELLED))
  {
    hide CancelBranches, SameTallies, SameTally;
    CancelIsQuiet(s.branches, true);
    SameTallyIsReflexive(s.top, s.branches);
  }

  lemma HonorIsQuiet(s: State)
    ensures Quiet(s, HonorBarrier(s))
  {
    hide FinishRun, Quiet;
    FinishIsQuiet(s, INTERRUPTED);
    QuietExtends(s, FinishRun(s, INTERRUPTED), FinishRun(s, INTERRUPTED).(pc := Top));
    SameIsQuiet(s, HonorBarrier(s));
  }

  /** Nothing counted has moved. */
  lemma SameIsQuiet(s: State, s': State)
    ensures
      && s'.calls == s.calls && s'.repairs == s.repairs && s'.budget == s.budget && s'.base == s.base
      && s'.generation == s.generation && s'.history == s.history && s'.top == s.top && s'.branches == s.branches
      ==> Quiet(s, s')
  {
  }

  lemma QuietExtends(s: State, t: State, s': State)
    requires Quiet(s, t)
    requires s'.calls == t.calls && s'.repairs == t.repairs && s'.budget == t.budget && s'.base == t.base
    requires s'.generation == t.generation && s'.history == t.history && s'.top == t.top && s'.branches == t.branches
    ensures Quiet(s, s')
  {
    hide SameTally, SameTallies;
  }

  lemma PlaceMoveIsQuiet(g: Plan, s: State, l: Label)
    requires Enabled(g, s, l) && IsPlaceMove(l)
    ensures Quiet(s, Apply(g, s, l))
  {
    hide Enabled, Apply;
    hide Quiet, FinishRun, HonorBarrier, CancelBranches, Fits, JoinResult, IsScheduled, IsRefused, MainAttempt;
    hide ChooseLateRoute, CommitLateRoute;
    PlaceApplies(g, s, l);
    var s' := Apply(g, s, l);
    SameIsQuiet(s, s');
    if l.Drain? {
      DrainIsQuiet(s);
    } else if l.Honor? {
      HonorIsQuiet(s);
    } else if l.Quit? || l.HitLimit? || l.Refuse? || l.GiveUp? || l.HitNodeLimit? {
      var e := if l.Quit? then INTERRUPTED else if l.GiveUp? then UNCERTAIN else EXHAUSTED;
      FinishIsQuiet(s, e);
      QuietExtends(s, FinishRun(s, e), s');
    } else if l.LateRoute? {
      LateRouteIsQuiet(s, ChooseLateRoute(g, s, s.pc.node, l.exhausted));
    }
  }

  lemma LateRouteIsQuiet(s: State, c: RouteChoice)
    ensures Quiet(s, CommitLateRoute(s, c))
    ensures CommitLateRoute(s, c).top == s.top && CommitLateRoute(s, c).pc == Top && SamePool(s, CommitLateRoute(s, c))
  {
    hide Quiet;
    SameIsQuiet(s, s.(pc := Top));
    if c.Ends? {
      FinishIsQuiet(s, c.ending);
      QuietExtends(s, FinishRun(s, c.ending), FinishRun(s, c.ending).(pc := Top));
    }
  }

  lemma DrainIsQuiet(s: State)
    ensures Quiet(s, s.(branches := CancelBranches(s.branches, true)))
    ensures Quiet(s, s.(branches := CancelBranches(s.branches, false), sweeping := false))
  {
    hide CancelBranches, SameTallies, SameTally;
    CancelIsQuiet(s.branches, true);
    CancelIsQuiet(s.branches, false);
    SameTallyIsReflexive(s.top, s.branches);
  }

  lemma AroundMoveIsQuiet(g: Plan, s: State, l: Label)
    requires Enabled(g, s, l) && IsAroundMove(l) && !l.Restart?
    ensures Quiet(s, Apply(g, s, l))
  {
    hide Enabled, Apply;
    hide Quiet, FinishRun, CancelBranches, IsUncertain, ApplyControl;
    AroundApplies(g, s, l);
    var s' := Apply(g, s, l);
    SameIsQuiet(s, s');
    if l.Control? {
      ControlIsQuiet(s, l.action);
    } else if l.Sweep? {
      DrainIsQuiet(s);
    } else if l.Cancel? {
      CancelRunIsQuiet(s);
    } else if l.Recover? {
      FinishIsQuiet(s, UNCERTAIN);
      if IsUncertain(s) { QuietExtends(s, FinishRun(s, UNCERTAIN), s'); }
    }
  }

  lemma ControlIsQuiet(s: State, a: Action)
    ensures Quiet(s, ApplyControl(s, a))
  {
    hide Quiet;
    SameIsQuiet(s, ApplyControl(s, a));
  }

  lemma PersistIsQuiet(s: State, n: Id, r: Result)
    requires n in s.top.rows
    ensures Quiet(s, PersistResult(s, n, r))
  {
    hide SameTallies;
    SameTallyIsReflexive(s.top, s.branches);
  }

  lemma AfterPoolIsQuiet(s: State, n: Id, first: bool, stopped: bool)
    requires n in s.top.rows
    ensures Quiet(s, AfterPool(s, n, first, stopped))
  {
    hide SameTally, SameTallies, CancelBranches, Aggregate, HasRaised;
    SameTallyIsReflexive(s.top, s.branches);
    CancelIsQuiet(s.branches, true);
  }

  lemma PollIsQuiet(s: State, n: Id, r: Result)
    requires n in s.top.rows
    ensures Quiet(s, s.(top := Polled(s.top, n), pc := Holding(n, r)))
  {
    hide SameTallies;
    SameTallyIsReflexive(s.top, s.branches);
  }

  /** A label of the loop other than a start or a route. */
  lemma WalkMoveIsQuiet(g: Plan, s: State, l: Label)
    requires Enabled(g, s, l) && (l.Poll? || l.Resume? || l.Persist? || l.OpenPool? || ClosesPool(l))
    ensures Quiet(s, Apply(g, s, l))
  {
    hide Enabled, Apply;
    hide Quiet, PersistResult, AfterPool, Polled, IsUnresolved, IsAdmission, Fits, UnsettledOf, IsRefused, ChooseRoute, CommitRoute;
    WorkApplies(g, s, l);
    var s' := Apply(g, s, l);
    SameIsQuiet(s, s');
    if l.Poll? { PollIsQuiet(s, l.node, l.result); }
    else if l.Persist? { PersistIsQuiet(s, s.pc.node, s.pc.result); }
    else if ClosesPool(l) { AfterPoolIsQuiet(s, s.pc.node, s.pc.first, IsStopRead(s, l)); }
  }

  /** A branch rewritten without touching its tally. */
  lemma SlotIsQuiet(s: State, slot: Slot, b: Branch, t: Thread)
    requires slot in s.branches && SameTally(s.branches[slot].walk, b.walk) && b.plan == s.branches[slot].plan
    ensures Quiet(s, SetThread(SetBranch(s, slot, b), slot, t))
    ensures SameTallies(s.branches, s.branches[slot := b])
  {
  }

  lemma PersistBranchIsQuiet(s: State, slot: Slot, r: Result)
    requires HasBranchNode(s, slot)
    ensures Quiet(s, PersistBranchResult(s, slot, r))
  {
    hide SameTallies, Settle, Checkpoint, Quiet, SameTally;
    var b := s.branches[slot];
    WalkWritesKeepTally(b.walk, NodeAt(s, slot), r);
    if r.Awaiting? {
      SameIsQuiet(s, PersistBranchResult(s, slot, r));
      SlotIsQuiet(s, slot, b.(walk := Checkpoint(b.walk, NodeAt(s, slot), r.externalHandle)), Out(false));
    } else {
      SameIsQuiet(s, PersistBranchResult(s, slot, r));
      if !IsOver(s) { SettleBranchIsQuiet(s, slot, r); }
    }
  }

  lemma SettleBranchIsQuiet(s: State, slot: Slot, r: Result)
    requires HasBranchNode(s, slot) && !r.Awaiting? && !IsOver(s)
    ensures Quiet(s, PersistBranchResult(s, slot, r))
  {
    hide SameTallies, Settle, SameTally;
    var b := s.branches[slot];
    WalkWritesKeepTally(b.walk, NodeAt(s, slot), r);
    SlotIsQuiet(s, slot, b.(walk := Settle(b.walk, NodeAt(s, slot), r)), Leaving(r));
  }

  lemma WalkWritesKeepTally(w: Walk, id: Id, r: Result)
    requires id in w.rows
    ensures SameTally(w, Polled(w, id))
    ensures r.Awaiting? ==> SameTally(w, Checkpoint(w, id, r.externalHandle))
    ensures !r.Awaiting? ==> SameTally(w, Settle(w, id, r))
  {
  }

  lemma BranchMoveIsQuiet(g: Plan, s: State, l: Label)
    requires Enabled(g, s, l) && IsBranchMove(l) && !l.StartBranch? && !l.RouteBranch?
    ensures Quiet(s, Apply(g, s, l))
  {
    hide Enabled, Apply;
    hide Quiet, LookAtBranch, PersistBranchResult, BlockedResult, Fits, Polled, SameTally;
    BranchApplies(g, s, l);
    var s' := Apply(g, s, l);
    SameIsQuiet(s, s');
    if l.PollBranch? {
      WalkWritesKeepTally(s.branches[l.slot].walk, NodeAt(s, l.slot), l.result);
      var b := s.branches[l.slot];
      SlotIsQuiet(s, l.slot, b.(walk := Polled(b.walk, NodeAt(s, l.slot))), Answered(l.result));
    } else if l.PersistBranch? {
      PersistBranchIsQuiet(s, l.slot, s.threads[l.slot].result);
    } else if l.BlockBranch? {
      CloseIsQuiet(s, l.slot, BlockedResult(l.slot, s.threads[l.slot].uncertain));
    }
  }

  lemma CloseIsQuiet(s: State, slot: Slot, r: BranchResult)
    requires slot in s.branches
    ensures Quiet(s, CloseBranch(s, slot, r))
  {
    hide Quiet;
    SlotIsQuiet(s, slot, Close(s.branches[slot], r), Out(false));
  }

  /** The five labels that count something. */
  predicate IsCounting(l: Label) { l.Start? || l.Route? || l.StartBranch? || l.RouteBranch? || l.Restart? }

  lemma StepIsQuiet(g: Plan, s: State, l: Label)
    requires Sound(g, s) && Enabled(g, s, l) && !IsCounting(l)
    ensures Quiet(s, Apply(g, s, l))
  {
    hide Quiet, Sound, Enabled, Apply;
    if IsPlaceMove(l) { PlaceMoveIsQuiet(g, s, l); }
    else if IsAroundMove(l) { AroundMoveIsQuiet(g, s, l); }
    else if IsBranchMove(l) { BranchMoveIsQuiet(g, s, l); }
    else { WalkMoveIsQuiet(g, s, l); }
  }

  // ---- the four labels that count within a run ----

  lemma RouteChoices(g: Plan, s: State)
    requires Sound(g, s) && s.pc.Routing?
    ensures ValidRoute(g, s, s.pc.node) && s.top.at == Some(s.pc.node)
    ensures var c := ChooseRoute(g, s, s.pc.node);
      !c.Moves? ==> Quiet(s, CommitRoute(s, c))
  {
    hide Quiet, Sound, ChooseRoute, FinishRun, HonorBarrier, ValidRoute;
    RouteKeepsSound(g, s);
    TokenRow(g, s);
    var c := ChooseRoute(g, s, s.pc.node);
    if c.Held? {
      HonorIsQuiet(s);
      QuietExtends(s, HonorBarrier(s), CommitRoute(s, c));
    } else if c.Ends? {
      FinishIsQuiet(s, c.ending);
      QuietExtends(s, FinishRun(s, c.ending), CommitRoute(s, c));
    }
  }

  lemma BranchRouteChoices(g: Plan, s: State, slot: Slot)
    requires Sound(g, s) && slot in s.threads && s.threads[slot].Leaving?
    ensures HasBranchNode(s, slot) && !s.threads[slot].result.Awaiting? && EdgesHaveRows(s.branches[slot])
    ensures var c := ChooseBranchRoute(s, slot, s.threads[slot].result);
      !c.Walks? ==> Quiet(s, CommitBranchRoute(s, slot, c))
  {
    hide Quiet, Sound, ChooseBranchRoute, EdgesHaveRows, CloseBranch;
    RouteBranchKeepsSound(g, s, slot);
    var c := ChooseBranchRoute(s, slot, s.threads[slot].result);
    if c.Closes? { CloseIsQuiet(s, slot, c.result); }
    else if !c.Walks? { SameIsQuiet(s, CommitBranchRoute(s, slot, c)); }
  }

  lemma BranchStartChoices(s: State, slot: Slot, limit: bool)
    requires HasBranchNode(s, slot)
    ensures var c := ChooseStart(s, slot, limit);
      !c.Begins? ==> Quiet(s, CommitStart(s, slot, c))
  {
    hide Quiet, ChooseStart;
    var c := ChooseStart(s, slot, limit);
    if !c.Begins? { SameIsQuiet(s, CommitStart(s, slot, c)); }
  }

  // ---- branches seen from outside their threads ----

  ghost predicate BranchesKept(bs: map<Slot, Branch>, bs': map<Slot, Branch>) {
    bs' == bs || bs' == CancelBranches(bs, true) || bs' == CancelBranches(bs, false)
  }

  /** Branches are left alone or cancelled, and the pool is left alone, opened or forgotten. */
  ghost predicate FromOutside(s: State, s': State) {
    && BranchesKept(s.branches, s'.branches)
    && (s'.threads == s.threads || (forall slot | slot in s'.threads :: s'.threads[slot].Entering?))
  }

  lemma SameFromOutside(s: State, s': State)
    ensures BranchesKept(s.branches, s'.branches) && (s'.threads == s.threads || s'.threads == map[]) ==> FromOutside(s, s')
  {
    hide BranchesKept;
  }

  /** The branches, the pool and the calls so far. */
  ghost predicate SamePool(s: State, s': State) {
    s'.branches == s.branches && s'.threads == s.threads && s'.invoked == s.invoked
  }

  lemma FinishKeepsBranches(s: State, e: Ending)
    ensures SamePool(s, FinishRun(s, e)) && FinishRun(s, e).pc == s.pc
  {
  }

  lemma HonorKeepsBranches(s: State)
    ensures SamePool(s, HonorBarrier(s)) && (HonorBarrier(s).pc == Top || HonorBarrier(s).pc.Parking?)
  {
  }

  lemma RouteKeepsBranches(s: State, c: RouteChoice)
    requires c.Moves? ==> c.edge.from in s.top.rows && c.edge.to in s.top.rows
    ensures SamePool(s, CommitRoute(s, c)) && (CommitRoute(s, c).pc == Top || CommitRoute(s, c).pc.Parking?)
  {
    hide Advance;
  }

  lemma ControlKeepsBranches(s: State, a: Action)
    ensures SamePool(s, ApplyControl(s, a)) && ApplyControl(s, a).pc == s.pc
  {
  }

  lemma LoopWritesKeepBranches(s: State, n: Id, r: Result)
    requires n in s.top.rows
    ensures SamePool(s, StartAttempt(s, n)) && StartAttempt(s, n).pc == Calling(n)
    ensures SamePool(s, PersistResult(s, n, r)) && (PersistResult(s, n, r).pc.Top? || PersistResult(s, n, r).pc.Settling?)
  {
    hide Begin, Settle, Checkpoint;
  }

  lemma AfterPoolFromOutside(s: State, n: Id, first: bool, stopped: bool)
    requires n in s.top.rows
    ensures var s' := AfterPool(s, n, first, stopped);
      s'.branches == s.branches || s'.branches == CancelBranches(s.branches, true)
  {
    hide CancelBranches, Aggregate, HasRaised;
  }

  lemma AfterPoolHasNoThreads(s: State, n: Id, first: bool, stopped: bool)
    requires n in s.top.rows
    ensures var s' := AfterPool(s, n, first, stopped);
      s'.threads == map[] && s'.invoked == s.invoked && !s'.pc.Calling? && !s'.pc.Pooling?
  {
    hide CancelBranches, Aggregate, HasRaised;
  }

  /** What a label that is no thread's does to the branches, the pool and the calls so far. */
  ghost predicate ActsFromOutside(s: State, s': State, l: Label) {
    && FromOutside(s, s')
    && (!l.Start? && s'.pc.Calling? ==> s'.pc == s.pc)
    && (!l.Answer? ==> s'.invoked == s.invoked)
    && (!l.OpenPool? && s'.pc.Pooling? ==> s'.pc == s.pc && s'.threads == s.threads)
  }

  lemma PlaceMovesFromOutside(g: Plan, s: State, l: Label)
    requires Enabled(g, s, l) && IsPlaceMove(l)
    ensures ActsFromOutside(s, Apply(g, s, l), l)
  {
    hide Enabled, Apply;
    hide FromOutside, ValidRoute, CancelBranches, FinishRun, HonorBarrier, JoinResult;
    hide Fits, IsRefused, MainAttempt, ChooseLateRoute, CommitLateRoute, IsScheduled;
    PlaceApplies(g, s, l);
    SameFromOutside(s, Apply(g, s, l));
    HonorKeepsBranches(s);
    FinishKeepsBranches(s, INTERRUPTED);
    FinishKeepsBranches(s, EXHAUSTED);
    FinishKeepsBranches(s, UNCERTAIN);
    if l.LateRoute? { LateRouteIsQuiet(s, ChooseLateRoute(g, s, s.pc.node, l.exhausted)); }
  }

  lemma AroundMovesFromOutside(g: Plan, s: State, l: Label)
    requires Enabled(g, s, l) && IsAroundMove(l) && !l.Restart?
    ensures ActsFromOutside(s, Apply(g, s, l), l)
  {
    hide Enabled, Apply;
    hide FromOutside, CancelBranches, FinishRun, ApplyControl, IsUncertain, RestartFrom;
    AroundApplies(g, s, l);
    SameFromOutside(s, Apply(g, s, l));
    FinishKeepsBranches(s, UNCERTAIN);
    if l.Cancel? { FinishKeepsBranches(s.(branches := CancelBranches(s.branches, true)), CANCELLED); }
    else if l.Control? { ControlKeepsBranches(s, l.action); }
  }

  lemma WorkMovesFromOutside(g: Plan, s: State, l: Label)
    requires Enabled(g, s, l) && IsWorkMove(l)
    ensures ActsFromOutside(s, Apply(g, s, l), l)
  {
    hide Enabled, Apply;
    hide FromOutside, ChooseRoute, CommitRoute, ValidRoute, CancelBranches, AfterPool, PersistResult, StartAttempt;
    hide IsUnresolved, IsAdmission, Fits, IsRefused, Polled, UnsettledOf;
    WorkApplies(g, s, l);
    var s' := Apply(g, s, l);
    SameFromOutside(s, s');
    if l.Start? { LoopWritesKeepBranches(s, l.node, BOUNDARY); }
    else if l.Persist? { LoopWritesKeepBranches(s, s.pc.node, s.pc.result); }
    else if ClosesPool(l) {
      AfterPoolFromOutside(s, s.pc.node, s.pc.first, IsStopRead(s, l));
      AfterPoolHasNoThreads(s, s.pc.node, s.pc.first, IsStopRead(s, l));
    }
    else if l.OpenPool? { OpenedFromOutside(s, s', l.pool); }
    else if l.Route? {
      ChosenRouteIsAllowed(g, s, s.pc.node);
      RouteKeepsBranches(s, ChooseRoute(g, s, s.pc.node));
    }
  }

  lemma OtherMovesFromOutside(g: Plan, s: State, l: Label)
    requires Sound(g, s) && Enabled(g, s, l) && !IsBranchMove(l) && !l.Restart?
    ensures FromOutside(s, Apply(g, s, l))
    ensures !l.Start? && Apply(g, s, l).pc.Calling? ==> Apply(g, s, l).pc == s.pc
    ensures !l.Answer? ==> Apply(g, s, l).invoked == s.invoked
    ensures !l.OpenPool? && Apply(g, s, l).pc.Pooling? ==> Apply(g, s, l).pc == s.pc && Apply(g, s, l).threads == s.threads
  {
    hide Sound, FromOutside, Enabled, Apply;
    if IsPlaceMove(l) { PlaceMovesFromOutside(g, s, l); }
    else if IsAroundMove(l) { AroundMovesFromOutside(g, s, l); }
    else { WorkMovesFromOutside(g, s, l); }
  }

  lemma OpenedFromOutside(s: State, s': State, pool: set<Slot>)
    requires s'.branches == s.branches && s'.threads == map slot | slot in pool :: Entering
    ensures FromOutside(s, s')
  {
  }

  // ---- the run's own walk ----

  /** The labels that write a node row of the run. */
  predicate IsWalking(l: Label) { l.Start? || l.Poll? || l.Persist? || l.Route? || l.Restart? }

  lemma SmallWritesLeaveTop(s: State, e: Ending, a: Action)
    ensures FinishRun(s, e).top == s.top && HonorBarrier(s).top == s.top && ApplyControl(s, a).top == s.top
  {
  }

  lemma AfterPoolLeavesTop(s: State, n: Id, first: bool, stopped: bool)
    requires n in s.top.rows
    ensures AfterPool(s, n, first, stopped).top == s.top
  {
    hide CancelBranches, Aggregate, HasRaised;
  }

  lemma StepLeavesTop(g: Plan, s: State, l: Label)
    requires Sound(g, s) && Enabled(g, s, l) && !IsWalking(l)
    ensures Apply(g, s, l).top == s.top
  {
    hide Sound, Apply, Enabled;
    if IsBranchMove(l) { BranchMoveTouches(g, s, l); }
    else if IsPlaceMove(l) { PlaceMoveLeavesTop(g, s, l); }
    else { OtherMoveLeavesTop(g, s, l); }
  }

  lemma PlaceMoveLeavesTop(g: Plan, s: State, l: Label)
    requires Enabled(g, s, l) && IsPlaceMove(l)
    ensures Apply(g, s, l).top == s.top
  {
    hide Enabled, Apply;
    hide CancelBranches, FinishRun, HonorBarrier, JoinResult, IsUnresolved, Fits, IsRefused, MainAttempt, IsScheduled;
    hide ChooseLateRoute, CommitLateRoute;
    PlaceApplies(g, s, l);
    SmallWritesLeaveTop(s, INTERRUPTED, Pause);
    SmallWritesLeaveTop(s, EXHAUSTED, Pause);
    SmallWritesLeaveTop(s, UNCERTAIN, Pause);
    if l.LateRoute? { LateRouteIsQuiet(s, ChooseLateRoute(g, s, s.pc.node, l.exhausted)); }
  }

  lemma OtherMoveLeavesTop(g: Plan, s: State, l: Label)
    requires Enabled(g, s, l) && !IsPlaceMove(l) && !IsBranchMove(l) && !IsWalking(l)
    ensures Apply(g, s, l).top == s.top
  {
    hide CancelBranches, FinishRun, ApplyControl, AfterPool, IsUncertain, IsUnresolved, IsAdmission, IsScheduled;
    SmallWritesLeaveTop(s, UNCERTAIN, Pause);
    SmallWritesLeaveTop(s.(branches := CancelBranches(s.branches, true)), CANCELLED, Pause);
    if l.Control? { SmallWritesLeaveTop(s, UNCERTAIN, l.action); }
    else if ClosesPool(l) { AfterPoolLeavesTop(s, s.pc.node, s.pc.first, IsStopRead(s, l)); }
  }

  /** While a pool runs, the place of the loop and the run's own rows stay as they are. */
  lemma PoolStays(g: Plan, s: State, l: Label)
    requires Sound(g, s) && Enabled(g, s, l) && s.pc.Pooling? && !ClosesPool(l) && !l.Crash? && !l.Restart?
    ensures Apply(g, s, l).pc == s.pc && Apply(g, s, l).top == s.top
    ensures !IsBranchMove(l) ==> Apply(g, s, l).threads == s.threads
  {
    hide Sound, IsScheduled, Fits, CancelBranches, ValidRoute, FromOutside, IsUnresolved;
    if IsBranchMove(l) {
      hide Apply, Enabled;
      BranchMoveTouches(g, s, l);
    } else {
      assert !l.Recover? && !IsWalking(l);
      StepLeavesTop(g, s, l);
      OnlyControlsInPools(g, s, l);
    }
  }

  lemma OnlyControlsInPools(g: Plan, s: State, l: Label)
    requires Enabled(g, s, l) && s.pc.Pooling? && !ClosesPool(l) && !l.Crash? && !l.Restart? && !IsBranchMove(l)
    ensures l.Control? || l.Sweep? || l.Cancel? || l.Freeze?
    ensures Apply(g, s, l).pc == s.pc && Apply(g, s, l).threads == s.threads
  {
    hide IsScheduled, Fits, CancelBranches, ValidRoute, IsUnresolved;
  }

  /** The branch rows are created once and for all. */
  lemma StepKeepsSlots(g: Plan, s: State, l: Label)
    requires Sound(g, s) && Enabled(g, s, l)
    ensures SamePlans(s.branches, Apply(g, s, l).branches)
  {
    hide Sound, OnlySlot, Inherit, SamePlans, BranchesKept, RestartFrom;
    if l.Restart? { RestartKeepsPlans(s, l.budget); }
    else {
      hide Apply, Enabled;
      if IsBranchMove(l) {
        BranchMoveTouches(g, s, l);
        OnlySlotKeepsPlans(s, Apply(g, s, l), l.slot);
      } else {
        OtherMovesFromOutside(g, s, l);
        OutsideKeepsPlans(s.branches, Apply(g, s, l).branches);
      }
    }
  }

  lemma OnlySlotKeepsPlans(s: State, s': State, slot: Slot)
    requires OnlySlot(s, s', slot)
    ensures SamePlans(s.branches, s'.branches)
  {
    hide SamePlans;
  }

  lemma OutsideKeepsPlans(bs: map<Slot, Branch>, bs': map<Slot, Branch>)
    requires BranchesKept(bs, bs')
    ensures SamePlans(bs, bs')
  {
  }

  lemma RestartKeepsPlans(s: State, budget: Budget)
    ensures SamePlans(s.branches, RestartFrom(s, budget).branches)
  {
    hide Inherit;
  }

  /** The ending is unchanged, gone, or one of the four that no route decides. */
  ghost predicate NoSuccess(before: Option<Ending>, after: Option<Ending>) {
    || after == before || after == None
    || after == Some(INTERRUPTED) || after == Some(EXHAUSTED) || after == Some(UNCERTAIN) || after == Some(CANCELLED)
  }

  /** Only a route can end a run as succeeded. */
  lemma OnlyRoutesSucceed(g: Plan, s: State, l: Label)
    requires Sound(g, s) && Enabled(g, s, l) && !l.Route? && !l.LateRoute?
    ensures NoSuccess(s.ending, Apply(g, s, l).ending)
  {
    hide Sound, NoSuccess, Apply, Enabled;
    SameIsNoSuccess(s.ending);
    if IsBranchMove(l) { BranchMoveTouches(g, s, l); }
    else if IsAroundMove(l) { AroundMoveIsNoSuccess(g, s, l); }
    else if IsPlaceMove(l) { PlaceMoveIsNoSuccess(g, s, l); }
    else { WorkMoveIsNoSuccess(g, s, l); }
  }

  lemma SameIsNoSuccess(e: Option<Ending>)
    ensures NoSuccess(e, e) && NoSuccess(e, None)
  {
  }

  lemma AroundMoveIsNoSuccess(g: Plan, s: State, l: Label)
    requires Enabled(g, s, l) && IsAroundMove(l)
    ensures NoSuccess(s.ending, Apply(g, s, l).ending)
  {
    hide Enabled, Apply;
    hide NoSuccess, IsGoing, ValidBranchNode, HasThread, CancelBranch, AtRow, PauseAtSafePoint, CancelBranches, FinishRun, ApplyControl, IsUncertain, RestartFrom;
    hide StartAttempt, PersistResult, HonorBarrier, AfterPool, CommitRoute, ChooseRoute, JoinResult, CommitStart, ChooseStart;
    hide PollBranchHandle, PersistBranchResult, CommitBranchRoute, ChooseBranchRoute, CloseBranch, IsAdmission, IsScheduled;
    AroundApplies(g, s, l);
    SameIsNoSuccess(s.ending);
    EndingsOfFinish(s, UNCERTAIN);
    EndingsOfFinish(s.(branches := CancelBranches(s.branches, true)), CANCELLED);
    if l.Control? { EndingsOfControl(s, l.action); }
    else if l.Restart? { EndingsOfRestart(s, l.budget); }
  }

  lemma PlaceMoveIsNoSuccess(g: Plan, s: State, l: Label)
    requires Enabled(g, s, l) && IsPlaceMove(l) && !l.LateRoute?
    ensures NoSuccess(s.ending, Apply(g, s, l).ending)
  {
    hide Enabled, Apply;
    hide NoSuccess, CancelBranches, FinishRun, HonorBarrier, JoinResult, Fits, IsRefused, MainAttempt, IsScheduled;
    PlaceApplies(g, s, l);
    SameIsNoSuccess(s.ending);
    EndingsOfFinish(s, INTERRUPTED);
    EndingsOfFinish(s, EXHAUSTED);
    EndingsOfFinish(s, UNCERTAIN);
    EndingsOfHonor(s);
  }

  lemma WorkMoveIsNoSuccess(g: Plan, s: State, l: Label)
    requires Enabled(g, s, l) && IsWorkMove(l) && !l.Route?
    ensures NoSuccess(s.ending, Apply(g, s, l).ending)
  {
    hide Enabled, Apply;
    hide NoSuccess, AfterPool, IsUnresolved, IsAdmission, Fits, IsRefused, PersistResult, StartAttempt, Polled, UnsettledOf;
    WorkApplies(g, s, l);
    SameIsNoSuccess(s.ending);
    if ClosesPool(l) { EndingsOfPool(s, s.pc.node, s.pc.first, IsStopRead(s, l)); }
    else if l.Start? { EndingsOfWrites(s, l.node, BOUNDARY); }
    else if l.Persist? { EndingsOfWrites(s, s.pc.node, s.pc.result); }
  }

  lemma EndingsOfFinish(s: State, e: Ending)
    ensures FinishRun(s, e).ending == s.ending || FinishRun(s, e).ending == Some(e)
    ensures e == INTERRUPTED || e == EXHAUSTED || e == UNCERTAIN || e == CANCELLED ==>
      NoSuccess(s.ending, FinishRun(s, e).ending)
  {
  }

  lemma EndingsOfHonor(s: State)
    ensures HonorBarrier(s).ending == s.ending || HonorBarrier(s).ending == Some(INTERRUPTED)
    ensures NoSuccess(s.ending, HonorBarrier(s).ending)
  {
  }

  lemma EndingsOfControl(s: State, a: Action)
    ensures ApplyControl(s, a).ending == s.ending
  {
  }

  lemma EndingsOfPool(s: State, n: Id, first: bool, stopped: bool)
    requires n in s.top.rows
    ensures AfterPool(s, n, first, stopped).ending == s.ending
  {
    hide CancelBranches, Aggregate, HasRaised;
  }

  lemma EndingsOfWrites(s: State, n: Id, r: Result)
    requires n in s.top.rows
    ensures StartAttempt(s, n).ending == s.ending && PersistResult(s, n, r).ending == s.ending
  {
    hide Begin, Settle, Checkpoint;
  }

  lemma EndingsOfRestart(s: State, budget: Budget)
    ensures RestartFrom(s, budget).ending == None && RestartFrom(s, budget).history == s.history
  {
  }

  lemma OneStepMore(g: Plan, s: State, l: Label, ls: seq<Label>)
    requires Enabled(g, s, l) && IsRun(g, Apply(g, s, l), ls)
    ensures IsRun(g, s, [l] + ls) && Exec(g, s, [l] + ls) == Exec(g, Apply(g, s, l), ls)
  {
    hide Enabled, Apply;
    assert ([l] + ls)[1..] == ls;
  }

  lemma {:induction false} RunsChain(g: Plan, s: State, ls: seq<Label>, more: seq<Label>)
    requires IsRun(g, s, ls) && IsRun(g, Exec(g, s, ls), more)
    ensures IsRun(g, s, ls + more) && Exec(g, s, ls + more) == Exec(g, Exec(g, s, ls), more)
    decreases |ls|
  {
    hide Enabled, Apply;
    if ls == [] { assert ls + more == more; }
    else {
      RunsChain(g, Apply(g, s, ls[0]), ls[1..], more);
      assert (ls + more)[1..] == ls[1..] + more;
    }
  }

  lemma TwoSteps(g: Plan, s: State, a: Label, b: Label)
    requires Enabled(g, s, a) && Enabled(g, Apply(g, s, a), b)
    ensures IsRun(g, s, [a, b]) && Exec(g, s, [a, b]) == Apply(g, Apply(g, s, a), b)
  {
    hide Enabled, Apply;
    assert [a, b][0] == a && [a, b][1..] == [b];
    assert [b][0] == b && [b][1..] == [];
    var s1 := Apply(g, s, a);
    assert IsRun(g, s1, [b]) && Exec(g, s1, [b]) == Apply(g, s1, b);
  }
}
