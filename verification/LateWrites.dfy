/**
 Writes to settled branches. A barrier settles branches whose threads are still under way, and
 nothing stops those threads from writing the row afterwards: `cancel` leaves no barrier behind,
 so even a thread that has not looked yet passes its check. This says exactly which threads can
 still write, for one step and for every continuation.
 */
module LateWrites {
  import opened Options
  import opened Graphs
  import opened Results
  import opened Walks
  import opened Reports
  import opened Machine
  import opened Tokens
  import opened Effects
  import opened Discipline
  import opened Admission

  /** The same row, but for the number of polls, which is no column. */
  ghost predicate SameRecord(b: Branch, b': Branch) {
    && b'.plan == b.plan && b'.order == b.order && b'.status == b.status && b'.result == b.result
    && b'.walk.at == b.walk.at && b'.walk.counts == b.walk.counts && b'.walk.rows.Keys == b.walk.rows.Keys
    && forall id | id in b.walk.rows :: b'.walk.rows[id] == b.walk.rows[id].(polls := b'.walk.rows[id].polls)
  }

  /** A pending answer with this handle changes the handle row. */
  predicate ChangesHandle(r: Row, handle: string) {
    handle != "" && !r.trigger.Untriggered? && r.trigger != Checkpointed(handle)
  }

  // ---- one step ----

  /** This transaction of a thread writes its branch's rows. */
  ghost predicate IsWriting(s: State, l: Label)
    requires IsBranchMove(l)
  {
    && HasBranchNode(s, l.slot)
    && match s.threads[l.slot]
       case Blocking(_) => true
       case Leaving(r) =>
         !r.Awaiting? && (ChooseBranchRoute(s, l.slot, r).Closes? || ChooseBranchRoute(s, l.slot, r).Walks?)
       case Answered(r) => if r.Awaiting? then ChangesHandle(RowAt(s, l.slot), r.externalHandle) else !IsOver(s)
       case Starting => l.StartBranch? && ChooseStart(s, l.slot, l.limit).Begins?
       case _ => false
  }

  lemma SameIsSame(b: Branch)
    ensures SameRecord(b, b)
  {
  }

  lemma CloseWrites(b: Branch, r: BranchResult)
    requires b.walk.at.Some?
    ensures !SameRecord(b, Close(b, r))
  {
  }

  lemma AdvanceWrites(b: Branch, e: Edge, repair: bool)
    requires e.from in b.walk.rows && e.to in b.walk.rows && e.to != e.from && b.walk.at == Some(e.from)
    ensures !SameRecord(b, b.(walk := Advance(b.walk, e, repair)))
  {
  }

  lemma SettleWrites(b: Branch, r: Result)
    requires AtRow(b.walk) && Current(b.walk).state.InFlight? && !r.Awaiting?
    ensures !SameRecord(b, b.(walk := Settle(b.walk, b.walk.at.value, r)))
  {
    var b' := b.(walk := Settle(b.walk, b.walk.at.value, r));
    assert b'.walk.rows[b.walk.at.value].state.Settled?;
  }

  lemma CheckpointWrites(b: Branch, handle: string)
    requires AtRow(b.walk) && handle != ""
    ensures SameRecord(b, b.(walk := Checkpoint(b.walk, b.walk.at.value, handle))) <==> !ChangesHandle(Current(b.walk), handle)
  {
    var b' := b.(walk := Checkpoint(b.walk, b.walk.at.value, handle));
    if ChangesHandle(Current(b.walk), handle) { assert b'.walk.rows[b.walk.at.value].trigger == Checkpointed(handle); }
    else { assert b'.walk.rows[b.walk.at.value] == b.walk.rows[b.walk.at.value]; }
  }

  lemma PollWritesNothing(b: Branch)
    requires AtRow(b.walk)
    ensures SameRecord(b, b.(walk := Polled(b.walk, b.walk.at.value)))
  {
  }

  lemma RouteWritesExactlyWhen(g: Plan, s: State, slot: Slot)
    requires Sound(g, s) && Enabled(g, s, RouteBranch(slot))
    ensures slot in s.branches && slot in Apply(g, s, RouteBranch(slot)).branches
    ensures SameRecord(s.branches[slot], Apply(g, s, RouteBranch(slot)).branches[slot]) <==> !IsWriting(s, RouteBranch(slot))
  {
    hide Sound, SameRecord, Advance, EdgesHaveRows, FinishedBranchResult, SoundBranch, OneToken;
    ThreadHasNode(g, s, slot);
    var b, r := s.branches[slot], s.threads[slot].result;
    ChosenBranchRouteIsAllowed(s, slot, r);
    BranchEdgeMoves(slot, b);
    SameIsSame(b);
    match ChooseBranchRoute(s, slot, r) {
      case Closes(br) => CloseWrites(b, br);
      case Walks(e, repair) => AdvanceWrites(b, e, repair);
      case Stays =>
      case Blocks =>
    }
  }

  lemma BranchEdgeMoves(slot: Slot, b: Branch)
    requires SoundBranch(slot, b)
    ensures forall e | e in b.plan.edges :: e.to != e.from
  {
  }

  lemma PersistWritesExactlyWhen(g: Plan, s: State, slot: Slot)
    requires Sound(g, s) && Enabled(g, s, PersistBranch(slot))
    ensures slot in s.branches && slot in Apply(g, s, PersistBranch(slot)).branches
    ensures SameRecord(s.branches[slot], Apply(g, s, PersistBranch(slot)).branches[slot]) <==> !IsWriting(s, PersistBranch(slot))
  {
    hide Sound, SameRecord, Settle, Checkpoint, SoundBranch, OneToken, ChangesHandle;
    ThreadHasNode(g, s, slot);
    var b, r := s.branches[slot], s.threads[slot].result;
    SameIsSame(b);
    if r.Awaiting? && r.externalHandle != "" { CheckpointWrites(b, r.externalHandle); }
    else if r.Awaiting? { NoHandleChangesNothing(RowAt(s, slot)); }
    else if !IsOver(s) { SettleWrites(b, r); }
  }

  lemma BeginWrites(b: Branch)
    requires AtRow(b.walk) && Current(b.walk).state.Ready?
    ensures !SameRecord(b, BeginBranch(b))
  {
    assert BeginBranch(b).walk.rows[b.walk.at.value].state.InFlight?;
  }

  lemma StartWritesExactlyWhen(g: Plan, s: State, slot: Slot, limit: bool)
    requires Sound(g, s) && Enabled(g, s, StartBranch(slot, limit))
    ensures slot in s.branches && slot in Apply(g, s, StartBranch(slot, limit)).branches
    ensures SameRecord(s.branches[slot], Apply(g, s, StartBranch(slot, limit)).branches[slot]) <==> !IsWriting(s, StartBranch(slot, limit))
  {
    hide Sound, SameRecord, SoundBranch, OneToken, BeginBranch, ChooseStart;
    ThreadHasNode(g, s, slot);
    SameIsSame(s.branches[slot]);
    BeginWrites(s.branches[slot]);
  }

  lemma NoHandleChangesNothing(r: Row)
    ensures !ChangesHandle(r, "")
  {
  }

  /** What a thread's own move does to a settled branch: it writes exactly when it is at a writing point. */
  lemma OwnMoveWritesExactlyWhen(g: Plan, s: State, l: Label)
    requires Sound(g, s) && Enabled(g, s, l) && IsBranchMove(l) && IsClosed(s.branches, l.slot)
    ensures l.slot in Apply(g, s, l).branches
    ensures SameRecord(s.branches[l.slot], Apply(g, s, l).branches[l.slot]) <==> !IsWriting(s, l)
  {
    hide Enabled, Apply;
    hide Sound, SameRecord, Fits, EdgesHaveRows, LookAtBranch, ChooseBranchRoute, CommitBranchRoute, PersistBranchResult, Polled;
    hide SoundBranch, OneToken, BlockedResult, ChooseStart, CommitStart, SameRun, SamePlans, BranchAttempt, ChangesHandle;
    BranchApplies(g, s, l);
    BranchMoveTouches(g, s, l);
    var b := s.branches[l.slot];
    SameIsSame(b);
    if l.RouteBranch? { RouteWritesExactlyWhen(g, s, l.slot); }
    else if l.PersistBranch? { PersistWritesExactlyWhen(g, s, l.slot); }
    else if l.PollBranch? { PollWritesNothing(b); }
    else if l.BlockBranch? {
      ThreadHasNode(g, s, l.slot);
      CloseWrites(b, BlockedResult(l.slot, s.threads[l.slot].uncertain));
    }
    else if l.StartBranch? { StartWritesExactlyWhen(g, s, l.slot, l.limit); }
  }

  /** A step writes the row of a settled branch if and only if it is its own thread's, at a writing point. */
  lemma ClosedRowIsWrittenExactlyWhen(g: Plan, s: State, l: Label, slot: Slot)
    requires Sound(g, s) && Enabled(g, s, l) && !l.Restart? && IsClosed(s.branches, slot)
    ensures slot in Apply(g, s, l).branches
    ensures !SameRecord(s.branches[slot], Apply(g, s, l).branches[slot]) <==> IsBranchMove(l) && l.slot == slot && IsWriting(s, l)
  {
    hide Sound, OnlySlot, BranchesKept, Apply, Enabled, SameRecord, IsWriting;
    SameIsSame(s.branches[slot]);
    if IsBranchMove(l) {
      if l.slot == slot { OwnMoveWritesExactlyWhen(g, s, l); }
      else {
        BranchMoveTouches(g, s, l);
        OtherSlotKeepsBranch(s, Apply(g, s, l), l.slot, slot);
      }
    } else {
      OtherMovesFromOutside(g, s, l);
      OutsideKeepsClosed(s.branches, Apply(g, s, l).branches, slot);
    }
  }

  // ---- every continuation ----

  /**
   Some continuation writes the row of the settled branch: its thread is at a call or a
   transaction that leads to a write, or has not looked yet and would find one; `cancel` takes
   whatever barrier is still in its way, but a start needs a run that is going.
   */
  ghost predicate CanStillWrite(s: State, slot: Slot) {
    && HasBranchNode(s, slot)
    && var row := RowAt(s, slot);
       match s.threads[slot]
       case Entering => row.state.Ready? ==> IsGoing(s)
       case Blocking(_) => true
       case Leaving(_) => true
       case Querying => true
       case Invoking => !IsOver(s) || !row.trigger.Untriggered?
       case Answered(r) => if r.Awaiting? then ChangesHandle(row, r.externalHandle) else !IsOver(s)
       case Starting => IsGoing(s)
       case Out(_) => false
  }

  lemma OwnMoveStaysShut(g: Plan, s: State, l: Label)
    requires Sound(g, s) && Enabled(g, s, l) && IsBranchMove(l) && IsClosed(s.branches, l.slot) && !CanStillWrite(s, l.slot)
    ensures !CanStillWrite(Apply(g, s, l), l.slot)
  {
    hide Enabled, Apply;
    hide Sound, Fits, EdgesHaveRows, ChooseBranchRoute, CommitBranchRoute, Settle, BlockedResult, SoundBranch, OneToken;
    hide Checkpoint, LookAtBranch, Close, BeginBranch, ChooseStart, CommitStart;
    BranchApplies(g, s, l);
    if l.StartBranch? { StartStaysShut(g, s, l.slot, l.limit); }
    else if l.Look? { LookStaysShut(g, s, l.slot); }
  }

  lemma StartStaysShut(g: Plan, s: State, slot: Slot, limit: bool)
    requires Enabled(g, s, StartBranch(slot, limit)) && !CanStillWrite(s, slot)
    ensures !CanStillWrite(Apply(g, s, StartBranch(slot, limit)), slot)
  {
  }

  lemma LookStaysShut(g: Plan, s: State, slot: Slot)
    requires Sound(g, s) && Enabled(g, s, Look(slot)) && !CanStillWrite(s, slot)
    ensures !CanStillWrite(Apply(g, s, Look(slot)), slot)
  {
    hide Sound, SoundBranch, OneToken;
    LookFindsTheToken(g, s, slot);
  }

  /** What a look finds is what the thread then stands at. */
  lemma LookFindsTheToken(g: Plan, s: State, slot: Slot)
    requires Sound(g, s) && Enabled(g, s, Look(slot))
    ensures slot in s.branches && SoundThread(s.branches[slot].walk, LookAtBranch(s, slot))
  {
    hide SoundWalk, SoundPc, ValidPlan, SoundBarrier, SoundThreads, OneToken;
    assert SoundBranch(slot, s.branches[slot]);
    LookFits(s, slot);
  }

  lemma ShutDoesNotWrite(s: State, l: Label, slot: Slot)
    requires !CanStillWrite(s, slot)
    ensures IsBranchMove(l) && l.slot == slot ==> !IsWriting(s, l)
    ensures l.StartBranch? && l.slot == slot && HasBranchNode(s, slot) && s.threads[slot].Starting? ==> !Reopens(s, l, slot)
  {
    hide ChooseBranchRoute;
  }

  /** No thread is given to a settled branch. */
  lemma NoNewThread(g: Plan, s: State, l: Label, slot: Slot)
    requires Sound(g, s) && Enabled(g, s, l) && !l.Restart? && !IsBranchMove(l) && IsClosed(s.branches, slot)
    ensures slot in Apply(g, s, l).threads ==> slot in s.threads && Apply(g, s, l).threads[slot] == s.threads[slot]
  {
    hide Sound, FromOutside;
    if l.OpenPool? {
      hide Limit;
      assert slot !in UnsettledOf(s.branches, l.node);
    } else {
      hide Apply, Enabled;
      OtherMovesFromOutside(g, s, l);
      StepKeepsSound(g, s, l);
      if !Apply(g, s, l).pc.Pooling? { NoThreadsElsewhere(g, Apply(g, s, l)); }
    }
  }

  lemma NoThreadsElsewhere(g: Plan, s: State)
    requires Sound(g, s) && !s.pc.Pooling?
    ensures s.threads == map[]
  {
    hide SoundWalk, SoundPc, SoundBranches, ValidPlan, SoundBarrier;
    NoThreadsOutsidePools(s);
  }

  ghost predicate StaysStopped(s: State, s': State) { (IsOver(s) ==> IsOver(s')) && (IsGoing(s') ==> IsGoing(s)) }

  lemma SameRowStaysStopped(s: State, s': State)
    requires s'.status == s.status && s'.barrier == s.barrier
    ensures StaysStopped(s, s')
  {
  }

  lemma ControlStaysStopped(g: Plan, s: State, l: Label)
    requires Enabled(g, s, l) && (l.Control? || l.Sweep? || l.Cancel? || l.Freeze?) && s.status != Paused
    ensures StaysStopped(s, Apply(g, s, l))
  {
    hide CancelBranches, IsUncertain, RestartFrom;
  }

  lemma ClosingKeepsRunRow(g: Plan, s: State, l: Label)
    requires Enabled(g, s, l) && (ClosesPool(l) || l.Crash?)
    ensures var s' := Apply(g, s, l); s'.status == s.status && s'.barrier == s.barrier
  {
    hide AfterPool, IsUncertain, RestartFrom, IsStopRead;
    if ClosesPool(l) { AfterPoolKeepsRun(s, s.pc.node, s.pc.first, IsStopRead(s, l)); }
  }

  /** While a thread is under way, a terminal run stays terminal, and a run that is held or over is not resumed. */
  lemma StopStaysStopped(g: Plan, s: State, l: Label)
    requires Sound(g, s) && Enabled(g, s, l) && !l.Restart? && s.pc.Pooling?
    ensures StaysStopped(s, Apply(g, s, l))
  {
    hide Sound, Apply, Enabled, StaysStopped, OnlySlot;
    TokenRow(g, s);
    if IsBranchMove(l) {
      BranchMoveTouches(g, s, l);
      SameRunRow(s, Apply(g, s, l), l.slot);
      SameRowStaysStopped(s, Apply(g, s, l));
    } else if ClosesPool(l) || l.Crash? {
      ClosingKeepsRunRow(g, s, l);
      SameRowStaysStopped(s, Apply(g, s, l));
    } else {
      OnlyControlsInPools(g, s, l);
      ControlStaysStopped(g, s, l);
    }
  }

  lemma SameThreadStaysShut(s: State, s': State, slot: Slot)
    requires slot in s'.branches && slot in s.branches && s'.branches[slot] == s.branches[slot]
    requires slot in s.threads ==> StaysStopped(s, s')
    requires slot in s'.threads ==> slot in s.threads && s'.threads[slot] == s.threads[slot]
    ensures !CanStillWrite(s, slot) ==> !CanStillWrite(s', slot)
  {
    hide ChangesHandle;
  }

  lemma StepStaysShut(g: Plan, s: State, l: Label, slot: Slot)
    requires Sound(g, s) && Enabled(g, s, l) && !l.Restart? && IsClosed(s.branches, slot) && !CanStillWrite(s, slot)
    ensures !CanStillWrite(Apply(g, s, l), slot)
  {
    hide Sound, OnlySlot, BranchesKept, Apply, Enabled, CanStillWrite;
    var s' := Apply(g, s, l);
    if slot in s.threads {
      ThreadsAreInPools(g, s, slot);
      StopStaysStopped(g, s, l);
    }
    if IsBranchMove(l) {
      BranchMoveTouches(g, s, l);
      if l.slot == slot { OwnMoveStaysShut(g, s, l); }
      else {
        OtherSlotKeepsBranch(s, s', l.slot, slot);
        OtherSlotKeepsThread(s, s', l.slot, slot);
        SameThreadStaysShut(s, s', slot);
      }
    } else {
      OtherMovesFromOutside(g, s, l);
      OutsideKeepsClosed(s.branches, s'.branches, slot);
      NoNewThread(g, s, l, slot);
      SameThreadStaysShut(s, s', slot);
    }
  }

  /** The row a start writes is one it reopens. */
  lemma ShutStaysClosed(g: Plan, s: State, l: Label, slot: Slot)
    requires Sound(g, s) && Enabled(g, s, l) && IsClosed(s.branches, slot) && !CanStillWrite(s, slot)
    ensures IsClosed(Apply(g, s, l).branches, slot)
  {
    hide Sound, Apply, CanStillWrite, IsWriting, Fits, EdgesHaveRows, ChooseStart;
    ClosedIsReopenedExactlyWhen(g, s, l, slot);
    ShutDoesNotWrite(s, l, slot);
  }

  lemma OtherSlotKeepsThread(s: State, s': State, slot: Slot, other: Slot)
    requires OnlySlot(s, s', slot) && other != slot
    ensures other in s'.threads ==> other in s.threads && s'.threads[other] == s.threads[other]
  {
  }

  lemma SameRecordChains(a: Branch, b: Branch, c: Branch)
    requires SameRecord(a, b)
    ensures SameRecord(b, c) ==> SameRecord(a, c)
    ensures SameRecord(a, c) ==> SameRecord(b, c)
  {
  }

  /** A settled branch that nobody can still write keeps its row in every continuation. */
  lemma {:induction false} ShutRowIsFrozen(g: Plan, s: State, ls: seq<Label>, slot: Slot)
    requires Sound(g, s) && IsRun(g, s, ls) && WithoutRestart(ls) && IsClosed(s.branches, slot) && !CanStillWrite(s, slot)
    ensures slot in Exec(g, s, ls).branches && SameRecord(s.branches[slot], Exec(g, s, ls).branches[slot])
    decreases |ls|
  {
    hide Sound, Enabled, Apply, CanStillWrite, SameRecord, IsWriting;
    if ls == [] { SameIsSame(s.branches[slot]); }
    else {
      var s1 := Apply(g, s, ls[0]);
      ShutDoesNotWrite(s, ls[0], slot);
      ClosedRowIsWrittenExactlyWhen(g, s, ls[0], slot);
      ShutStaysClosed(g, s, ls[0], slot);
      StepKeepsSound(g, s, ls[0]);
      StepStaysShut(g, s, ls[0], slot);
      ShutRowIsFrozen(g, s1, ls[1..], slot);
      SameRecordChains(s.branches[slot], s1.branches[slot], Exec(g, s, ls).branches[slot]);
    }
  }

  /** Some continuation writes the row. */
  ghost predicate WritesLater(g: Plan, s: State, slot: Slot)
    requires slot in s.branches
  {
    exists ls :: WritesAlong(g, s, ls, slot)
  }

  ghost predicate WritesAlong(g: Plan, s: State, ls: seq<Label>, slot: Slot)
    requires slot in s.branches
  {
    IsRun(g, s, ls) && WithoutRestart(ls) && slot in Exec(g, s, ls).branches
    && !SameRecord(s.branches[slot], Exec(g, s, ls).branches[slot])
  }

  lemma WritesNow(g: Plan, s: State, l: Label, slot: Slot)
    requires Sound(g, s) && Enabled(g, s, l) && IsBranchMove(l) && l.slot == slot && IsClosed(s.branches, slot) && IsWriting(s, l)
    ensures WritesLater(g, s, slot)
  {
    hide Sound, Enabled, Apply, SameRecord, IsWriting;
    OwnMoveWritesExactlyWhen(g, s, l);
    assert IsRun(g, Apply(g, s, l), []);
    assert [l][1..] == [];
    assert Exec(g, s, [l]) == Apply(g, s, l);
    assert WithoutRestart([l]);
    assert WritesAlong(g, s, [l], slot);
  }

  /** A step that keeps the row does not lose the chance. */
  lemma WritesAfter(g: Plan, s: State, l: Label, slot: Slot)
    requires Enabled(g, s, l) && !l.Restart? && slot in s.branches && slot in Apply(g, s, l).branches
    requires SameRecord(s.branches[slot], Apply(g, s, l).branches[slot]) && WritesLater(g, Apply(g, s, l), slot)
    ensures WritesLater(g, s, slot)
  {
    hide Enabled, Apply, SameRecord;
    var s1 := Apply(g, s, l);
    var ls :| WritesAlong(g, s1, ls, slot);
    assert ([l] + ls)[1..] == ls;
    SameRecordChains(s.branches[slot], s1.branches[slot], Exec(g, s1, ls).branches[slot]);
    assert WritesAlong(g, s, [l] + ls, slot);
  }

  // ---- each place leads to a write ----

  lemma BlockingWrites(g: Plan, s: State, slot: Slot)
    requires Sound(g, s) && HasBranchNode(s, slot) && s.threads[slot].Blocking? && IsClosed(s.branches, slot)
    ensures WritesLater(g, s, slot)
  {
    hide Sound, WritesLater;
    WritesNow(g, s, BlockBranch(slot), slot);
  }

  lemma LeavingWritesUnbarred(g: Plan, s: State, slot: Slot)
    requires Sound(g, s) && slot in s.threads && s.threads[slot].Leaving? && IsClosed(s.branches, slot) && s.barrier == NoBarrier
    ensures WritesLater(g, s, slot)
  {
    hide Sound, WritesLater, OneToken, SoundBranch, EdgesHaveRows, SameRecord, FinishedBranchResult;
    RouteBranchKeepsSound(g, s, slot);
    assert Enabled(g, s, RouteBranch(slot));
    OwnMoveWritesExactlyWhen(g, s, RouteBranch(slot));
    if IsWriting(s, RouteBranch(slot)) { WritesNow(g, s, RouteBranch(slot), slot); }
    else {
      var s1 := Apply(g, s, RouteBranch(slot));
      assert s1.threads[slot] == Blocking(false);
      ClosedIsReopenedExactlyWhen(g, s, RouteBranch(slot), slot);
      ThreadHasNode(g, s1, slot);
      BlockingWrites(g, s1, slot);
      WritesAfter(g, s, RouteBranch(slot), slot);
    }
  }

  /** Cancelling touches no settled branch and no thread, and leaves no barrier. */
  lemma CancelClears(g: Plan, s: State, slot: Slot)
    requires Sound(g, s) && slot in s.threads && IsClosed(s.branches, slot)
    ensures Enabled(g, s, Cancel)
    ensures var s' := Apply(g, s, Cancel);
      && Sound(g, s') && IsOver(s') && s'.barrier == NoBarrier && s'.threads == s.threads
      && IsClosed(s'.branches, slot) && s'.branches[slot] == s.branches[slot] && SameRecord(s.branches[slot], s'.branches[slot])
  {
    hide Sound, SameRecord;
    StepKeepsSound(g, s, Cancel);
    TokenRow(g, s);
    SameIsSame(s.branches[slot]);
  }

  lemma LeavingWrites(g: Plan, s: State, slot: Slot)
    requires Sound(g, s) && slot in s.threads && s.threads[slot].Leaving? && IsClosed(s.branches, slot)
    ensures WritesLater(g, s, slot)
  {
    hide Sound, WritesLater, SameRecord, Apply, Enabled;
    if s.barrier == NoBarrier { LeavingWritesUnbarred(g, s, slot); }
    else {
      CancelClears(g, s, slot);
      LeavingWritesUnbarred(g, Apply(g, s, Cancel), slot);
      WritesAfter(g, s, Cancel, slot);
    }
  }

  lemma AnsweredWrites(g: Plan, s: State, slot: Slot)
    requires Sound(g, s) && HasBranchNode(s, slot) && s.threads[slot].Answered? && IsClosed(s.branches, slot)
    requires IsWriting(s, PersistBranch(slot))
    ensures WritesLater(g, s, slot)
  {
    hide Sound, WritesLater, IsWriting;
    WritesNow(g, s, PersistBranch(slot), slot);
  }

  /** An external verifier may always answer with a handle nobody has seen. */
  lemma NewHandle(r: Row) returns (answer: Result)
    requires !r.trigger.Untriggered? && IsExternal(r.node.kind)
    ensures answer.Awaiting? && ChangesHandle(r, answer.externalHandle) && Fits(r.node.kind, answer)
  {
    var h := if r.trigger.Checkpointed? then r.trigger.handle + "x" else "x";
    assert |h| > 0 && (r.trigger.Checkpointed? ==> |h| != |r.trigger.handle|);
    answer := Awaiting(h);
  }

  lemma TriggeredIsExternal(g: Plan, s: State, slot: Slot)
    requires Sound(g, s) && HasBranchNode(s, slot) && !RowAt(s, slot).trigger.Untriggered?
    ensures IsExternal(RowAt(s, slot).node.kind)
  {
    hide SoundPc, SoundThreads, ValidPlan, SoundBarrier, OneToken;
    assert SoundBranch(slot, s.branches[slot]);
  }

  lemma QueryingWrites(g: Plan, s: State, slot: Slot)
    requires Sound(g, s) && slot in s.threads && s.threads[slot].Querying? && IsClosed(s.branches, slot)
    ensures WritesLater(g, s, slot)
  {
    hide Sound, WritesLater, OneToken, SoundBranch, SameRecord, ChangesHandle, Fits;
    ThreadHasNode(g, s, slot);
    TriggeredIsExternal(g, s, slot);
    var r := NewHandle(RowAt(s, slot));
    var l := PollBranch(slot, r);
    var s1 := Apply(g, s, l);
    OwnMoveWritesExactlyWhen(g, s, l);
    ClosedIsReopenedExactlyWhen(g, s, l, slot);
    StepKeepsSound(g, s, l);
    PolledChanges(RowAt(s, slot), RowAt(s, slot).(polls := RowAt(s, slot).polls + 1), r.externalHandle);
    AnsweredWrites(g, s1, slot);
    WritesAfter(g, s, l, slot);
  }

  lemma PolledChanges(r: Row, r': Row, handle: string)
    requires r'.trigger == r.trigger
    ensures ChangesHandle(r, handle) ==> ChangesHandle(r', handle)
  {
  }

  lemma InvokingWrites(g: Plan, s: State, slot: Slot)
    requires Sound(g, s) && slot in s.threads && s.threads[slot].Invoking? && IsClosed(s.branches, slot) && CanStillWrite(s, slot)
    ensures WritesLater(g, s, slot)
  {
    hide Sound, WritesLater, OneToken, SoundBranch, SameRecord, ChangesHandle, Fits;
    ThreadHasNode(g, s, slot);
    var r := if r :| Fits(RowAt(s, slot).node.kind, r) && (if r.Awaiting? then ChangesHandle(RowAt(s, slot), r.externalHandle) else !IsOver(s))
             then r else BOUNDARY;
    if RowAt(s, slot).trigger.Untriggered? {
      var final := SomeFinalAnswer(g, s, slot);
      assert Fits(RowAt(s, slot).node.kind, final) && !final.Awaiting?;
    } else {
      TriggeredIsExternal(g, s, slot);
      var pending := NewHandle(RowAt(s, slot));
      assert Fits(RowAt(s, slot).node.kind, pending);
    }
    var l := AnswerBranch(slot, r);
    var s1 := Apply(g, s, l);
    OwnMoveWritesExactlyWhen(g, s, l);
    ClosedIsReopenedExactlyWhen(g, s, l, slot);
    StepKeepsSound(g, s, l);
    AnsweredWrites(g, s1, slot);
    WritesAfter(g, s, l, slot);
  }

  lemma SomeFinalAnswer(g: Plan, s: State, slot: Slot) returns (r: Result)
    requires Sound(g, s) && HasBranchNode(s, slot)
    ensures Fits(RowAt(s, slot).node.kind, r) && !r.Awaiting?
  {
    hide SoundWalk, SoundPc, SoundThreads, ValidPlan, SoundBarrier, OneToken;
    assert SoundBranch(slot, s.branches[slot]);
    var k := RowAt(s, slot).node.kind;
    assert !IsContainer(k) && !k.Join?;
    r := if k.Verifier? then Verified(Succeeded, false, [], None) else Executed(Succeeded, {}, "", None);
  }

  lemma StartingWrites(g: Plan, s: State, slot: Slot)
    requires Sound(g, s) && slot in s.threads && s.threads[slot].Starting? && IsClosed(s.branches, slot) && IsGoing(s)
    ensures WritesLater(g, s, slot)
  {
    hide Sound, WritesLater, OneToken, SoundBranch, SameRecord, BeginBranch;
    ThreadHasNode(g, s, slot);
    var l := StartBranch(slot, false);
    OwnMoveWritesExactlyWhen(g, s, l);
    if IsWriting(s, l) { WritesNow(g, s, l, slot); }
    else {
      var s1 := Apply(g, s, l);
      assert s1.threads[slot] == Blocking(false);
      ClosedIsReopenedExactlyWhen(g, s, l, slot);
      StepKeepsSound(g, s, l);
      BlockingWrites(g, s1, slot);
      WritesAfter(g, s, l, slot);
    }
  }

  lemma EnteringWritesUnbarred(g: Plan, s: State, slot: Slot)
    requires Sound(g, s) && slot in s.threads && s.threads[slot].Entering? && IsClosed(s.branches, slot) && s.barrier == NoBarrier
    requires CanStillWrite(s, slot)
    ensures WritesLater(g, s, slot)
  {
    hide Sound, WritesLater, SoundBranch, SameRecord, OneToken;
    LookKeepsSound(g, s, slot);
    var l := Look(slot);
    assert Enabled(g, s, l);
    var s1 := Apply(g, s, l);
    OwnMoveWritesExactlyWhen(g, s, l);
    ClosedIsReopenedExactlyWhen(g, s, l, slot);
    BranchTokenIsLive(g, s, slot);
    match s1.threads[slot] {
      case Querying => QueryingWrites(g, s1, slot);
      case Blocking(_) => BlockingWrites(g, s1, slot);
      case Leaving(_) => LeavingWrites(g, s1, slot);
      case Starting => StartingWrites(g, s1, slot);
      case _ => assert false;
    }
    WritesAfter(g, s, l, slot);
  }

  lemma BranchTokenIsLive(g: Plan, s: State, slot: Slot)
    requires Sound(g, s) && HasBranchNode(s, slot)
    ensures RowAt(s, slot).state.Ready? || RowAt(s, slot).state.InFlight? || IsUnrouted(RowAt(s, slot))
  {
    hide SoundWalk, SoundPc, SoundThreads, ValidPlan, SoundBarrier;
    assert SoundBranch(slot, s.branches[slot]);
  }

  lemma EnteringWrites(g: Plan, s: State, slot: Slot)
    requires Sound(g, s) && slot in s.threads && s.threads[slot].Entering? && IsClosed(s.branches, slot) && CanStillWrite(s, slot)
    ensures WritesLater(g, s, slot)
  {
    hide Sound, WritesLater, SameRecord, Apply, Enabled;
    if s.barrier == NoBarrier { EnteringWritesUnbarred(g, s, slot); }
    else {
      CancelClears(g, s, slot);
      EnteringWritesUnbarred(g, Apply(g, s, Cancel), slot);
      WritesAfter(g, s, Cancel, slot);
    }
  }

  /** The row of a settled branch is written in some continuation if and only if its thread can still write. */
  lemma SettledRowIsWrittenExactlyWhen(g: Plan, s: State, slot: Slot)
    requires Sound(g, s) && IsClosed(s.branches, slot)
    ensures WritesLater(g, s, slot) <==> CanStillWrite(s, slot)
  {
    hide Sound, WritesAlong;
    if CanStillWrite(s, slot) {
      match s.threads[slot] {
        case Entering => EnteringWrites(g, s, slot);
        case Blocking(_) => BlockingWrites(g, s, slot);
        case Leaving(_) => LeavingWrites(g, s, slot);
        case Querying => QueryingWrites(g, s, slot);
        case Invoking => InvokingWrites(g, s, slot);
        case Answered(_) => AnsweredWrites(g, s, slot);
        case Starting => StartingWrites(g, s, slot);
        case _ => assert false;
      }
    } else if WritesLater(g, s, slot) {
      var ls :| WritesAlong(g, s, ls, slot);
      NotAlong(g, s, ls, slot);
    }
  }

  lemma NotAlong(g: Plan, s: State, ls: seq<Label>, slot: Slot)
    requires Sound(g, s) && IsClosed(s.branches, slot) && !CanStillWrite(s, slot)
    ensures !WritesAlong(g, s, ls, slot)
  {
    hide Sound, CanStillWrite, SameRecord;
    if IsRun(g, s, ls) && WithoutRestart(ls) { ShutRowIsFrozen(g, s, ls, slot); }
  }

  // ---- a settled branch that starts again ----

  /** The thread of the settled branch is about to start in a run that is going, or would find that it can, and budgets allow it. */
  ghost predicate CanReopen(s: State, slot: Slot) {
    && HasBranchNode(s, slot) && (s.threads[slot].Starting? || s.threads[slot].Entering?)
    && RowAt(s, slot).state.Ready? && IsGoing(s)
    && s.calls < s.budget.maxExecutorCalls && WithinNodeCalls(RowAt(s, slot))
  }

  lemma OwnMoveLeavesNoStart(g: Plan, s: State, l: Label)
    requires Sound(g, s) && Enabled(g, s, l) && IsBranchMove(l)
    ensures var s' := Apply(g, s, l);
      CanReopen(s', l.slot) ==> l.Look? && s'.branches == s.branches && s'.calls == s.calls && s'.budget == s.budget
                                && HasThread(s, l.slot) && s.threads[l.slot].Entering?
  {
    hide Enabled, Apply, Sound, Fits, EdgesHaveRows, LookAtBranch, ChooseBranchRoute, CommitBranchRoute, BlockedResult, Close, Polled;
    hide ChooseStart, Settle, Checkpoint, BeginBranch, BranchAttempt, WithinNodeCalls;
    BranchApplies(g, s, l);
    if l.StartBranch? { StartedThread(s, l.slot, l.limit); }
    else if l.RouteBranch? {
      ChosenBranchRouteIsAllowed(s, l.slot, s.threads[l.slot].result);
      RoutedThread(s, l.slot, ChooseBranchRoute(s, l.slot, s.threads[l.slot].result));
    }
  }

  lemma StartedThread(s: State, slot: Slot, limit: bool)
    requires HasBranchNode(s, slot)
    ensures var t := CommitStart(s, slot, ChooseStart(s, slot, limit)).threads[slot]; !t.Starting? && !t.Entering?
  {
    hide BeginBranch;
  }

  lemma RoutedThread(s: State, slot: Slot, c: BranchChoice)
    requires HasThread(s, slot)
    requires c.Walks? ==> c.edge.from in s.branches[slot].walk.rows && c.edge.to in s.branches[slot].walk.rows
    ensures var t := CommitBranchRoute(s, slot, c).threads[slot]; !t.Starting? && !t.Entering?
  {
    hide Advance, Close;
  }

  lemma CallsNeverFall(g: Plan, s: State, l: Label)
    requires Sound(g, s) && Enabled(g, s, l) && IsBranchMove(l)
    ensures Apply(g, s, l).calls >= s.calls && Apply(g, s, l).budget == s.budget
  {
    hide Sound, Enabled, Apply, Quiet, OnlySlot;
    if IsCounting(l) {
      hide ChooseStart, ChooseBranchRoute, BeginBranch, Advance, Close, EdgesHaveRows, Fits;
      BranchApplies(g, s, l);
    } else {
      StepIsQuiet(g, s, l);
      QuietBooks(s, Apply(g, s, l));
    }
  }

  lemma QuietBooks(s: State, s': State)
    requires Quiet(s, s')
    ensures s'.calls == s.calls && s'.budget == s.budget
  {
    hide SameTally, SameTallies, AddsOutcome;
  }

  lemma SameThreadStaysUnstarted(s: State, s': State, slot: Slot)
    requires slot in s.branches && slot in s'.branches && s'.branches[slot] == s.branches[slot]
    requires slot in s'.threads ==>
      slot in s.threads && s'.threads[slot] == s.threads[slot] && (IsGoing(s') ==> IsGoing(s)) && s'.calls >= s.calls && s'.budget == s.budget
    ensures CanReopen(s', slot) ==> CanReopen(s, slot)
  {
    hide WithinNodeCalls;
  }

  lemma StepLeavesNoStart(g: Plan, s: State, l: Label, slot: Slot)
    requires Sound(g, s) && Enabled(g, s, l) && !l.Restart? && IsClosed(s.branches, slot) && !CanReopen(s, slot)
    ensures IsClosed(Apply(g, s, l).branches, slot) && !CanReopen(Apply(g, s, l), slot)
  {
    hide Sound, OnlySlot, BranchesKept, Apply, Enabled, CanReopen, Reopens, Quiet, StaysStopped;
    var s' := Apply(g, s, l);
    ClosedIsReopenedExactlyWhen(g, s, l, slot);
    ReopeningIsAStart(g, s, l, slot);
    if IsBranchMove(l) {
      BranchMoveTouches(g, s, l);
      if l.slot == slot { OwnMoveStaysUnstarted(g, s, l); }
      else {
        OtherSlotKeepsBranch(s, s', l.slot, slot);
        OtherSlotKeepsThread(s, s', l.slot, slot);
        CallsNeverFall(g, s, l);
        SameRunRow(s, s', l.slot);
        SameThreadStaysUnstarted(s, s', slot);
      }
    } else {
      OtherMovesFromOutside(g, s, l);
      OutsideKeepsClosed(s.branches, s'.branches, slot);
      NoNewThread(g, s, l, slot);
      if slot in s'.threads { ControlKeepsBooks(g, s, l, slot); }
      SameThreadStaysUnstarted(s, s', slot);
    }
  }

  lemma OwnMoveStaysUnstarted(g: Plan, s: State, l: Label)
    requires Sound(g, s) && Enabled(g, s, l) && IsBranchMove(l) && !CanReopen(s, l.slot)
    ensures !CanReopen(Apply(g, s, l), l.slot)
  {
    hide Sound, Enabled, Apply, WithinNodeCalls, OnlySlot;
    OwnMoveLeavesNoStart(g, s, l);
    BranchMoveTouches(g, s, l);
    SameRunRow(s, Apply(g, s, l), l.slot);
  }

  /** While a thread is there, a step that is no thread's leaves the counters alone and does not set the run going. */
  lemma ControlKeepsBooks(g: Plan, s: State, l: Label, slot: Slot)
    requires Sound(g, s) && Enabled(g, s, l) && !l.Restart? && !IsBranchMove(l) && slot in s.threads && slot in Apply(g, s, l).threads
    ensures var s' := Apply(g, s, l); s'.calls == s.calls && s'.budget == s.budget && (IsGoing(s') ==> IsGoing(s))
  {
    hide Sound, Enabled, Apply, Quiet;
    ThreadsAreInPools(g, s, slot);
    NoCountingInPools(g, s, l);
    StepIsQuiet(g, s, l);
    QuietBooks(s, Apply(g, s, l));
    StopStaysStopped(g, s, l);
  }

  lemma NoCountingInPools(g: Plan, s: State, l: Label)
    requires Enabled(g, s, l) && s.pc.Pooling? && !IsBranchMove(l) && !l.Restart?
    ensures !IsCounting(l)
  {
    hide IsScheduled, Fits, ValidRoute, IsUnresolved, IsRefused;
  }

  lemma ReopeningIsAStart(g: Plan, s: State, l: Label, slot: Slot)
    requires Sound(g, s) && Enabled(g, s, l)
    ensures Reopens(s, l, slot) ==> CanReopen(s, slot)
  {
    hide Sound, Fits, EdgesHaveRows;
  }

  lemma {:induction false} NothingReopens(g: Plan, s: State, ls: seq<Label>, slot: Slot)
    requires Sound(g, s) && IsRun(g, s, ls) && WithoutRestart(ls) && IsClosed(s.branches, slot) && !CanReopen(s, slot)
    ensures IsClosed(Exec(g, s, ls).branches, slot)
    decreases |ls|
  {
    hide Sound, Enabled, Apply, CanReopen, IsClosed;
    if ls != [] {
      StepLeavesNoStart(g, s, ls[0], slot);
      StepKeepsSound(g, s, ls[0]);
      NothingReopens(g, Apply(g, s, ls[0]), ls[1..], slot);
    }
  }

  ghost predicate ReopensAlong(g: Plan, s: State, ls: seq<Label>, slot: Slot) {
    IsRun(g, s, ls) && WithoutRestart(ls) && !IsClosed(Exec(g, s, ls).branches, slot)
  }

  /** A settled branch becomes active again in some continuation if and only if its thread can still start it. */
  lemma ReopenedLaterExactlyWhen(g: Plan, s: State, slot: Slot)
    requires Sound(g, s) && IsClosed(s.branches, slot)
    ensures (exists ls :: ReopensAlong(g, s, ls, slot)) <==> CanReopen(s, slot)
  {
    hide Sound, Enabled, Apply, Reopens, IsClosed;
    if CanReopen(s, slot) {
      if s.threads[slot].Starting? {
        StartReopensNow(g, s, slot);
        assert ReopensAlong(g, s, [StartBranch(slot, false)], slot);
      } else {
        LookThenStart(g, s, slot);
        assert ReopensAlong(g, s, [Look(slot), StartBranch(slot, false)], slot);
      }
    } else if ls :| ReopensAlong(g, s, ls, slot) { NothingReopens(g, s, ls, slot); }
  }

  lemma StartReopensNow(g: Plan, s: State, slot: Slot)
    requires Sound(g, s) && IsClosed(s.branches, slot) && CanReopen(s, slot) && s.threads[slot].Starting?
    ensures Enabled(g, s, StartBranch(slot, false)) && !IsClosed(Apply(g, s, StartBranch(slot, false)).branches, slot)
    ensures ReopensAlong(g, s, [StartBranch(slot, false)], slot)
  {
    hide Sound, Apply, IsClosed;
    ClosedIsReopenedExactlyWhen(g, s, StartBranch(slot, false), slot);
    hide Enabled;
    assert [StartBranch(slot, false)][1..] == [];
    assert IsRun(g, Apply(g, s, StartBranch(slot, false)), []);
    assert Exec(g, s, [StartBranch(slot, false)]) == Apply(g, s, StartBranch(slot, false));
  }

  lemma LookThenStart(g: Plan, s: State, slot: Slot)
    requires Sound(g, s) && IsClosed(s.branches, slot) && CanReopen(s, slot) && s.threads[slot].Entering?
    ensures ReopensAlong(g, s, [Look(slot), StartBranch(slot, false)], slot)
  {
    hide Sound, Enabled, Apply, WithinNodeCalls;
    LookFindsAStart(g, s, slot);
    var s1 := Apply(g, s, Look(slot));
    StepKeepsSound(g, s, Look(slot));
    StartReopensNow(g, s1, slot);
    TwoSteps(g, s, Look(slot), StartBranch(slot, false));
  }

  lemma LookFindsAStart(g: Plan, s: State, slot: Slot)
    requires Sound(g, s) && CanReopen(s, slot) && s.threads[slot].Entering?
    ensures Enabled(g, s, Look(slot))
    ensures var s1 := Apply(g, s, Look(slot));
      CanReopen(s1, slot) && s1.threads[slot].Starting? && s1.branches == s.branches
  {
    hide Sound, WithinNodeCalls, OneToken;
    ReadyHasNoResult(g, s, slot);
  }

  lemma ReadyHasNoResult(g: Plan, s: State, slot: Slot)
    requires Sound(g, s) && HasBranchNode(s, slot) && RowAt(s, slot).state.Ready?
    ensures !IsUnrouted(RowAt(s, slot))
  {
    hide SoundWalk, SoundPc, SoundThreads, ValidPlan, SoundBarrier, KeepsRows;
    assert SoundBranch(slot, s.branches[slot]);
  }

  // ---- a blocked thread ----

  /** The branch is closed as blocked, and for good. */
  ghost predicate IsBlockedForGood(s: State, slot: Slot, uncertain: bool) {
    IsClosed(s.branches, slot) && s.branches[slot].result == Some(BlockedResult(slot, uncertain)) && !CanStillWrite(s, slot)
  }

  lemma BlockingStepEnds(g: Plan, s: State, l: Label, slot: Slot, uncertain: bool)
    requires Sound(g, s) && Enabled(g, s, l) && !l.Crash? && !l.Restart?
    requires slot in s.threads && s.threads[slot] == Blocking(uncertain)
    ensures var s' := Apply(g, s, l);
      (slot in s'.threads && s'.threads[slot] == Blocking(uncertain)) || IsBlockedForGood(s', slot, uncertain)
  {
    hide Sound, OnlySlot;
    ThreadsAreInPools(g, s, slot);
    if IsBranchMove(l) {
      if l.slot == slot {
        assert l.BlockBranch?;
        hide Apply, Enabled;
        OwnBlockEnds(g, s, slot);
      } else {
        hide Apply, Enabled;
        BranchMoveTouches(g, s, l);
        OtherThreadStays(s, Apply(g, s, l), l.slot, slot);
      }
    } else {
      if ClosesPool(l) { assert false; }
      hide Apply, Enabled;
      PoolStays(g, s, l);
    }
  }

  lemma OwnBlockEnds(g: Plan, s: State, slot: Slot)
    requires slot in s.threads && s.threads[slot].Blocking? && Enabled(g, s, BlockBranch(slot))
    ensures IsBlockedForGood(Apply(g, s, BlockBranch(slot)), slot, s.threads[slot].uncertain)
  {
    hide Enabled, Apply;
    BranchApplies(g, s, BlockBranch(slot));
  }

  lemma ThreadsAreInPools(g: Plan, s: State, slot: Slot)
    requires Sound(g, s) && slot in s.threads
    ensures s.pc.Pooling?
  {
    hide SoundWalk, SoundPc, SoundBranches, ValidPlan, SoundBarrier, SoundThread;
  }

  lemma OtherThreadStays(s: State, s': State, slot: Slot, other: Slot)
    requires OnlySlot(s, s', slot) && other != slot && other in s.threads
    ensures other in s'.threads && s'.threads[other] == s.threads[other]
  {
  }

  lemma StaysBlockedForGood(g: Plan, s: State, l: Label, slot: Slot, uncertain: bool)
    requires Sound(g, s) && Enabled(g, s, l) && !l.Restart? && IsBlockedForGood(s, slot, uncertain)
    ensures IsBlockedForGood(Apply(g, s, l), slot, uncertain)
  {
    hide Sound, Apply, Enabled, CanStillWrite, IsWriting;
    ShutDoesNotWrite(s, l, slot);
    ClosedRowIsWrittenExactlyWhen(g, s, l, slot);
    ShutStaysClosed(g, s, l, slot);
    StepStaysShut(g, s, l, slot);
  }

  /**
   A thread that blocks its branch ends in nothing but that block, a crash or a restart, whatever
   the other threads and the controls do meanwhile; and the block is final.
   */
  lemma {:induction false} BlockingEndsInTheBlock(g: Plan, s: State, ls: seq<Label>, slot: Slot, uncertain: bool)
    requires Sound(g, s) && IsRun(g, s, ls) && forall l | l in ls :: !l.Crash? && !l.Restart?
    requires (slot in s.threads && s.threads[slot] == Blocking(uncertain)) || IsBlockedForGood(s, slot, uncertain)
    ensures var s' := Exec(g, s, ls);
      (slot in s'.threads && s'.threads[slot] == Blocking(uncertain)) || IsBlockedForGood(s', slot, uncertain)
    decreases |ls|
  {
    hide Sound, Enabled, Apply, IsBlockedForGood;
    if ls != [] {
      StepKeepsSound(g, s, ls[0]);
      if IsBlockedForGood(s, slot, uncertain) { StaysBlockedForGood(g, s, ls[0], slot, uncertain); }
      else { BlockingStepEnds(g, s, ls[0], slot, uncertain); }
      BlockingEndsInTheBlock(g, Apply(g, s, ls[0]), ls[1..], slot, uncertain);
    }
  }

  /** With the shared calls spent, a start of a branch attempt becomes a block exactly if the run is going. */
  lemma ExhaustedStartBlocksExactlyWhen(g: Plan, s: State, slot: Slot, limit: bool)
    requires Sound(g, s) && slot in s.threads && s.threads[slot].Starting? && s.calls >= s.budget.maxExecutorCalls
    ensures Enabled(g, s, StartBranch(slot, limit)) && slot in Apply(g, s, StartBranch(slot, limit)).threads
    ensures Apply(g, s, StartBranch(slot, limit)).threads[slot] == Blocking(false) <==> IsGoing(s)
  {
    hide Sound, OneToken, SoundBranch;
    ThreadHasNode(g, s, slot);
  }

  // ---- two such continuations ----

  ghost predicate HasNoWayOn(s: State, slot: Slot, r: Result) {
    && HasBranchNode(s, slot) && !r.Awaiting?
    && Select(s.branches[slot].plan.edges, s.branches[slot].walk.counts, NodeAt(s, slot), r, RowAt(s, slot).attempts).None?
  }

  /** The row as `cancel` leaves it, and as the late thread rewrites it. */
  ghost predicate IsRewritten(g: Plan, s: State, ls: seq<Label>, slot: Slot, r: Result)
    requires HasNoWayOn(s, slot, r)
  {
    && IsRun(g, s, [Cancel] + ls) && slot in Exec(g, s, [Cancel] + ls).branches
    && slot in Apply(g, s, Cancel).branches && Apply(g, s, Cancel).branches[slot].result == Some(CancelledResult(slot))
    && Exec(g, s, [Cancel] + ls).ending == Some(CANCELLED)
    && Exec(g, s, [Cancel] + ls).branches[slot].status == Closed(OutcomeOf(r))
    && Exec(g, s, [Cancel] + ls).branches[slot].result == Some(FinishedBranchResult(slot, s.branches[slot].walk, r))
  }

  /** What `cancel` makes of a live run with an unsettled branch. */
  lemma CancelledAt(g: Plan, s: State, slot: Slot)
    requires Sound(g, s) && !IsOver(s) && slot in s.threads && slot in s.branches && IsUnsettled(s.branches[slot])
    ensures Enabled(g, s, Cancel)
    ensures var s' := Apply(g, s, Cancel);
      && Sound(g, s') && s'.barrier == NoBarrier && s'.ending == Some(CANCELLED) && s'.threads == s.threads
      && slot in s'.branches && s'.branches[slot] == CancelBranch(slot, s.branches[slot], true)
  {
    hide Sound;
    StepKeepsSound(g, s, Cancel);
  }

  /** With the run cancelled, a thread that leaves a node without an open edge closes the branch again. */
  lemma LateLeaving(g: Plan, s: State, slot: Slot, r: Result)
    requires Sound(g, s) && HasNoWayOn(s, slot, r) && s.threads[slot] == Leaving(r)
    ensures Enabled(g, s, RouteBranch(slot))
    ensures var s' := Apply(g, s, RouteBranch(slot));
      && slot in s'.branches && s'.branches[slot] == Close(s.branches[slot], FinishedBranchResult(slot, s.branches[slot].walk, r))
      && s'.ending == s.ending && s'.branches[slot].status == Closed(OutcomeOf(r))
  {
    hide Sound, OneToken, SoundBranch, EdgesHaveRows, Select, FinishedBranchResult;
    RouteBranchKeepsSound(g, s, slot);
    FinishedHasOutcome(slot, s.branches[slot].walk, r);
  }

  lemma FinishedHasOutcome(slot: Slot, w: Walk, r: Result)
    requires !r.Awaiting?
    ensures FinishedBranchResult(slot, w, r).outcome == OutcomeOf(r)
  {
  }

  /** A thread that is about to route when `cancel` comes turns the cancelled row into what it found. */
  lemma LeavingRewritesCancelled(g: Plan, s: State, slot: Slot, r: Result)
    requires Sound(g, s) && !IsOver(s) && HasNoWayOn(s, slot, r) && IsUnsettled(s.branches[slot]) && s.threads[slot] == Leaving(r)
    ensures IsRewritten(g, s, [RouteBranch(slot)], slot, r)
  {
    hide Sound, Select, FinishedBranchResult, Enabled, Apply;
    CancelledAt(g, s, slot);
    var s1 := Apply(g, s, Cancel);
    LateLeaving(g, s1, slot, r);
    assert IsRun(g, Apply(g, s1, RouteBranch(slot)), []);
    OneStepMore(g, s1, RouteBranch(slot), []);
    OneStepMore(g, s, Cancel, [RouteBranch(slot)]);
  }

  /** So does a thread that had not even looked. */
  lemma EnteringRewritesCancelled(g: Plan, s: State, slot: Slot, r: Result)
    requires Sound(g, s) && !IsOver(s) && HasNoWayOn(s, slot, r) && IsUnsettled(s.branches[slot]) && s.threads[slot].Entering?
    requires RowAt(s, slot).state.Settled? && !RowAt(s, slot).routed && RowAt(s, slot).result == Some(r)
    ensures IsRewritten(g, s, [Look(slot), RouteBranch(slot)], slot, r)
  {
    hide Sound, Select, FinishedBranchResult, Enabled, Apply, IsRun, Exec;
    CancelledAt(g, s, slot);
    var s1 := Apply(g, s, Cancel);
    var s2 := LookAfterCancel(g, s1, slot, r);
    LateLeaving(g, s2, slot, r);
    TwoSteps(g, s1, Look(slot), RouteBranch(slot));
    OneStepMore(g, s, Cancel, [Look(slot), RouteBranch(slot)]);
  }

  lemma LookAfterCancel(g: Plan, s: State, slot: Slot, r: Result) returns (s': State)
    requires Sound(g, s) && s.barrier == NoBarrier && HasBranchNode(s, slot) && s.threads[slot].Entering?
    requires RowAt(s, slot).state.Settled? && !RowAt(s, slot).routed && RowAt(s, slot).result == Some(r)
    ensures Enabled(g, s, Look(slot)) && s' == Apply(g, s, Look(slot)) && Sound(g, s')
    ensures s'.branches == s.branches && slot in s'.threads && s'.threads[slot] == Leaving(r) && s'.ending == s.ending
  {
    hide Sound;
    s' := Apply(g, s, Look(slot));
    StepKeepsSound(g, s, Look(slot));
  }
}
