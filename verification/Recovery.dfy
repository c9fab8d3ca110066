/**
 Write-ahead and recovery. The start of an attempt is in the durable history before anyone can
 be asked to do it; an attempt that a crash cut off ends its run or its branch in an error; a
 checkpointed handle is polled; and a synchronous answer of an external verifier leaves a
 trigger behind that makes a later recovery end the run although nothing was lost.
 */
module Recovery {
  import opened Options
  import opened Graphs
  import opened Results
  import opened Walks
  import opened Reports
  import opened Machine
  import opened Tokens
  import opened Effects
  import opened Discipline
  import opened AtMostOnce

  // ---- write-ahead ----

  ghost predicate Recorded(s: State) {
    && (forall a | IsPending(s, a) :: Began(a) in s.history)
    && (forall a | a in s.invoked :: Began(a) in s.history)
  }

  lemma PrefixHas(h: seq<Event>, h': seq<Event>, e: Event)
    requires h <= h' && e in h
    ensures e in h'
  {
  }

  lemma StartRecords(g: Plan, s: State, n: Id, a: Attempt)
    requires Sound(g, s) && Enabled(g, s, Start(n)) && IsPending(StartAttempt(s, n), a)
    ensures Began(a) in StartAttempt(s, n).history
  {
    hide Sound, IsRefused;
    NoThreadsAtTop(g, s);
    var s' := StartAttempt(s, n);
    assert a == MainAttempt(s', n);
    assert s'.history[|s.history|] == Began(a);
  }

  lemma BeginBranchRecords(s: State, slot: Slot, a: Attempt)
    requires HasBranchNode(s, slot) && IsPending(CommitStart(s, slot, Begins), a)
    ensures Began(a) in CommitStart(s, slot, Begins).history || IsPending(s, a)
  {
    var s' := CommitStart(s, slot, Begins);
    if a.place == Some(slot) {
      assert s'.history[|s.history|].attempt == a;
    } else {
      assert Started(s', a.place, a.node) == Started(s, a.place, a.node);
    }
  }

  lemma PendingIsRecorded(g: Plan, s: State, l: Label, a: Attempt)
    requires Sound(g, s) && Recorded(s) && Enabled(g, s, l) && IsPending(Apply(g, s, l), a)
    ensures Began(a) in Apply(g, s, l).history
  {
    hide Sound, IsPending, Started, StartAttempt, CommitStart, RestartFrom, ChooseStart, IsScheduled, IsRefused, NoNewCall;
    AttemptsStartOnlyWhileGoing(g, s, l);
    if l.Start? { StartRecords(g, s, l.node, a); }
    else if l.Restart? { NothingPendingAfterRestart(s, l.budget, a); }
    else if IsBegin(s, l) {
      BeginBranchRecords(s, l.slot, a);
      if IsPending(s, a) { PrefixHas(s.history, CommitStart(s, l.slot, Begins).history, Began(a)); }
    } else {
      hide Apply, Enabled;
      OtherStepsKeepStarts(g, s, l, a);
      StepHasNoCall(g, s, l);
      PendingWasPending(s, Apply(g, s, l), a);
      PrefixHas(s.history, Apply(g, s, l).history, Began(a));
    }
  }

  lemma NothingPendingAfterRestart(s: State, budget: Budget, a: Attempt)
    ensures !IsPending(RestartFrom(s, budget), a)
  {
    hide Started;
    RestartForgetsPlaces(s, budget);
  }

  lemma StepKeepsRecord(g: Plan, s: State, l: Label)
    requires Sound(g, s) && Recorded(s) && Enabled(g, s, l)
    ensures Recorded(Apply(g, s, l))
  {
    hide Sound, Apply, Enabled, IsPending;
    var s' := Apply(g, s, l);
    forall a | IsPending(s', a) ensures Began(a) in s'.history { PendingIsRecorded(g, s, l, a); }
    InvokedGrows(g, s, l);
    AttemptsStartOnlyWhileGoing(g, s, l);
    if Handed(s, l).Some? { HandingOverLapses(g, s, l); }
    forall a | a in s'.invoked ensures Began(a) in s'.history { PrefixHas(s.history, s'.history, Began(a)); }
  }

  lemma {:induction false} RunKeepsRecord(g: Plan, s: State, ls: seq<Label>)
    requires Sound(g, s) && Recorded(s) && IsRun(g, s, ls)
    ensures Recorded(Exec(g, s, ls))
    decreases |ls|
  {
    hide Sound, Recorded, Enabled, Apply;
    if ls != [] {
      StepKeepsRecord(g, s, ls[0]);
      StepKeepsSound(g, s, ls[0]);
      RunKeepsRecord(g, Apply(g, s, ls[0]), ls[1..]);
    }
  }

  /** Whatever was handed to the executor or verifier had been recorded as begun before. */
  lemma HandedAttemptsAreRecorded(g: Plan, budget: Budget, s: State)
    requires Reachable(g, budget, s)
    ensures forall a | a in s.invoked :: Began(a) in s.history
  {
    hide Sound, Enabled, Apply, IsRun, Exec, Started;
    var ls :| IsRun(g, Init(g, budget), ls) && Exec(g, Init(g, budget), ls) == s;
    InitIsSound(g, budget);
    RunKeepsRecord(g, Init(g, budget), ls);
  }

  // ---- a cut-off attempt of the run ----

  /** A crash keeps the tables, so it keeps the uncertainty; recovery then ends the run. */
  lemma CrashThenRecover(g: Plan, s: State)
    requires !IsOver(s) && IsUncertain(s)
    ensures IsRun(g, s, [Crash, Recover])
    ensures var s' := Exec(g, s, [Crash, Recover]);
      s'.ending == Some(UNCERTAIN) && s'.top == s.top && s'.branches == s.branches && s'.invoked == s.invoked
  {
    hide IsUncertain, IsRun, Exec;
    SameTablesSameUncertainty(s, s.(pc := Dead, threads := map[], sweeping := false, freezing := false));
    TwoSteps(g, s, Crash, Recover);
  }

  lemma SameTablesSameUncertainty(s: State, s': State)
    requires s'.top == s.top && s'.branches == s.branches
    ensures IsUncertain(s') <==> IsUncertain(s)
  {
  }

  lemma TopRowIsUncertain(s: State, n: Id)
    requires n in s.top.rows && (IsCutOff(s.top.rows[n]) || s.top.rows[n].trigger.Triggering?)
    ensures IsUncertain(s)
  {
  }

  /**
   The process died while the run waited for a counted attempt at `n` without a checkpointed
   handle. Until it recovers it stays dead with that attempt cut off; then, or by a cancel, the
   run is over, at a place that leads to no call, with no thread that could make one.
   */
  ghost predicate IsDoomed(s: State, n: Id) {
    && s.threads == map[]
    && if IsOver(s)
       then (s.ending == Some(UNCERTAIN) || s.ending == Some(CANCELLED)) && s.barrier == NoBarrier && LeadsToNoCall(s.pc)
       else s.pc == Dead && n in s.top.rows && IsCutOff(s.top.rows[n])
  }

  predicate LeadsToNoCall(pc: Pc) { !pc.Calling? && !pc.Routing? && !pc.Parking? }

  lemma CrashDooms(g: Plan, s: State, n: Id)
    requires Sound(g, s) && !IsOver(s) && n in s.top.rows && IsCutOff(s.top.rows[n])
    ensures Enabled(g, s, Crash) && IsDoomed(Apply(g, s, Crash), n) && Apply(g, s, Crash).invoked == s.invoked
  {
    hide Sound, IsCutOff;
  }

  lemma DoomedHasNoMoves(g: Plan, s: State, l: Label, n: Id)
    requires IsDoomed(s, n) && Enabled(g, s, l) && !l.Restart?
    ensures !IsBranchMove(l) && !l.Start? && !l.Poll? && !l.Route? && !l.Resume? && !l.Answer?
  {
    hide IsCutOff, IsScheduled, Fits, ValidRoute, IsAdmission;
  }

  /** What a step may make of a doomed run. */
  ghost predicate DoomGoesOn(s: State, s': State, l: Label, n: Id) {
    && IsDoomed(s', n) && s'.invoked == s.invoked
    && (l.Recover? || l.Cancel? || IsOver(s) ==> IsOver(s'))
  }

  lemma AroundMoveKeepsDoomed(g: Plan, s: State, l: Label, n: Id)
    requires IsDoomed(s, n) && Enabled(g, s, l) && IsAroundMove(l) && !l.Restart?
    ensures DoomGoesOn(s, Apply(g, s, l), l, n)
  {
    hide Enabled, Apply;
    hide IsCutOff, IsUncertain, CancelBranches;
    AroundApplies(g, s, l);
    if l.Recover? && !IsOver(s) { TopRowIsUncertain(s, n); }
  }

  lemma PlaceMoveKeepsDoomed(g: Plan, s: State, l: Label, n: Id)
    requires IsDoomed(s, n) && Enabled(g, s, l) && IsPlaceMove(l)
    ensures DoomGoesOn(s, Apply(g, s, l), l, n)
  {
    hide Enabled, Apply;
    hide IsCutOff, IsScheduled, Fits, ValidRoute, CancelBranches, IsRefused, ChooseLateRoute, CommitLateRoute, JoinResult, MainAttempt;
    PlaceApplies(g, s, l);
  }

  lemma WorkMoveKeepsDoomed(g: Plan, s: State, l: Label, n: Id)
    requires IsDoomed(s, n) && Enabled(g, s, l) && IsWorkMove(l)
    ensures DoomGoesOn(s, Apply(g, s, l), l, n)
  {
    hide Enabled, Apply;
    hide IsCutOff, IsScheduled, Fits, ValidRoute, IsUnresolved, StartAttempt, PersistResult, AfterPool, ChooseRoute, CommitRoute, Polled;
    WorkApplies(g, s, l);
    DoomedHasNoMoves(g, s, l, n);
    if l.Persist? { PersistKeepsDoomed(s, s.pc.node, s.pc.result, n); }
    else if ClosesPool(l) { PoolKeepsDoomed(s, s.pc.node, s.pc.first, IsStopRead(s, l), n); }
  }

  lemma PersistKeepsDoomed(s: State, m: Id, r: Result, n: Id)
    requires IsDoomed(s, n) && IsOver(s) && m in s.top.rows
    ensures DoomGoesOn(s, PersistResult(s, m, r), Persist, n)
  {
    hide Settle, Checkpoint, MainAttempt, IsCutOff;
  }

  lemma PoolKeepsDoomed(s: State, m: Id, first: bool, stopped: bool, n: Id)
    requires IsDoomed(s, n) && IsOver(s) && m in s.top.rows
    ensures DoomGoesOn(s, AfterPool(s, m, first, stopped), ClosePool, n)
  {
    hide AfterPool, IsCutOff;
    AfterPoolKeepsRun(s, m, first, stopped);
    AfterPoolHasNoThreads(s, m, first, stopped);
    AfterPoolEndsNothing(s, m, first, stopped);
  }

  lemma AfterPoolEndsNothing(s: State, m: Id, first: bool, stopped: bool)
    requires m in s.top.rows
    ensures var s' := AfterPool(s, m, first, stopped); s'.ending == s.ending && LeadsToNoCall(s'.pc)
  {
    hide CancelBranches, Aggregate, HasRaised;
  }

  lemma StepKeepsDoomed(g: Plan, s: State, l: Label, n: Id)
    requires IsDoomed(s, n) && Enabled(g, s, l) && !l.Restart?
    ensures IsDoomed(Apply(g, s, l), n) && Apply(g, s, l).invoked == s.invoked
    ensures l.Recover? || l.Cancel? || IsOver(s) ==> IsOver(Apply(g, s, l))
  {
    hide Enabled, Apply, IsDoomed;
    DoomedHasNoMoves(g, s, l, n);
    if IsPlaceMove(l) { PlaceMoveKeepsDoomed(g, s, l, n); }
    else if IsAroundMove(l) { AroundMoveKeepsDoomed(g, s, l, n); }
    else { WorkMoveKeepsDoomed(g, s, l, n); }
  }

  lemma {:induction false} DoomedStaysDoomed(g: Plan, s: State, ls: seq<Label>, n: Id)
    requires IsDoomed(s, n) && IsRun(g, s, ls) && WithoutRestart(ls)
    ensures IsDoomed(Exec(g, s, ls), n) && Exec(g, s, ls).invoked == s.invoked
    ensures IsOver(s) || (exists l :: l in ls && (l.Recover? || l.Cancel?)) ==> IsOver(Exec(g, s, ls))
    decreases |ls|
  {
    hide IsDoomed, Enabled, Apply;
    if ls != [] {
      StepKeepsDoomed(g, s, ls[0], n);
      DoomedStaysDoomed(g, Apply(g, s, ls[0]), ls[1..], n);
    }
  }

  /**
   Whatever comes after the crash, more crashes, controls and cancels included: the attempt is
   never handed over again, nothing else is, and the first recovery or cancel ends the run, as an
   uncertain effect or as cancelled.
   */
  lemma CutOffAttemptEndsTheRun(g: Plan, s: State, n: Id, ls: seq<Label>)
    requires Sound(g, s) && !IsOver(s) && n in s.top.rows && IsCutOff(s.top.rows[n])
    requires IsRun(g, s, [Crash] + ls) && WithoutRestart(ls)
    ensures var s' := Exec(g, s, [Crash] + ls);
      && s'.invoked == s.invoked
      && (if IsOver(s') then s'.ending == Some(UNCERTAIN) || s'.ending == Some(CANCELLED)
          else s'.pc == Dead && n in s'.top.rows && IsCutOff(s'.top.rows[n]))
      && ((exists l :: l in ls && (l.Recover? || l.Cancel?)) ==> IsOver(s'))
  {
    hide Sound, Enabled, Apply;
    CrashDooms(g, s, n);
    assert ([Crash] + ls)[1..] == ls;
    DoomedStaysDoomed(g, Apply(g, s, Crash), ls, n);
  }

  // ---- a cut-off attempt of a branch ----

  /**
   Branch `slot` stands on a running node whose answer nobody waits for and whose handle was
   never checkpointed; or it was closed for that reason, or cancelled.
   */
  ghost predicate IsStranded(s: State, slot: Slot) {
    slot in s.branches
    && var b := s.branches[slot];
      && (b.result.Some? ==> b.result.value.outcome == Errored || b.result.value.outcome == Cancelled)
      && (if b.walk.at.None? then b.result.Some?
          else AtRow(b.walk) && Current(b.walk).state.InFlight? && !Current(b.walk).trigger.Checkpointed?)
      && (slot in s.threads ==> IsAway(s.threads[slot]))
  }

  predicate IsAway(t: Thread) { t.Entering? || t.Out? || (t.Blocking? && t.uncertain) }

  lemma CancelKeepsStranded(s: State, s': State, slot: Slot)
    requires IsStranded(s, slot) && FromOutside(s, s')
    ensures IsStranded(s', slot)
  {
  }

  lemma OtherSlotKeepsStranded(s: State, s': State, slot: Slot, other: Slot)
    requires IsStranded(s, slot) && OnlySlot(s, s', other) && other != slot
    ensures IsStranded(s', slot)
  {
  }

  lemma OwnMoveKeepsStranded(g: Plan, s: State, l: Label)
    requires Enabled(g, s, l) && IsBranchMove(l) && IsStranded(s, l.slot)
    ensures IsStranded(Apply(g, s, l), l.slot)
  {
    hide Enabled, Apply;
    hide Fits, BlockedResult, EdgesHaveRows, ChooseStart, CommitStart, ChooseBranchRoute, CommitBranchRoute, PersistBranchResult, PollBranchHandle;
    BranchApplies(g, s, l);
    BlockedAsError(l.slot);
    assert l.Look? || l.BlockBranch?;
  }

  lemma BlockedAsError(slot: Slot)
    ensures BlockedResult(slot, true).outcome == Errored
  {
  }

  lemma StepKeepsStranded(g: Plan, s: State, l: Label, slot: Slot)
    requires Sound(g, s) && Enabled(g, s, l) && !l.Restart? && IsStranded(s, slot)
    ensures IsStranded(Apply(g, s, l), slot)
  {
    hide Sound, Enabled, Apply, IsStranded, OnlySlot, FromOutside;
    if IsBranchMove(l) {
      if l.slot == slot { OwnMoveKeepsStranded(g, s, l); }
      else {
        BranchMoveTouches(g, s, l);
        OtherSlotKeepsStranded(s, Apply(g, s, l), slot, l.slot);
      }
    } else {
      OtherMovesFromOutside(g, s, l);
      CancelKeepsStranded(s, Apply(g, s, l), slot);
    }
  }

  /** A branch cut off by a crash never ends in anything but an error or a cancellation. */
  lemma {:induction false} CutOffBranchEndsInError(g: Plan, s: State, ls: seq<Label>, slot: Slot)
    requires Sound(g, s) && IsRun(g, s, ls) && WithoutRestart(ls) && IsStranded(s, slot)
    ensures slot in Exec(g, s, ls).branches
    ensures var r := Exec(g, s, ls).branches[slot].result;
      r.Some? ==> r.value.outcome == Errored || r.value.outcome == Cancelled
    decreases |ls|
  {
    hide Sound, Enabled, Apply;
    if ls != [] {
      StepKeepsSound(g, s, ls[0]);
      StepKeepsStranded(g, s, ls[0], slot);
      CutOffBranchEndsInError(g, Apply(g, s, ls[0]), ls[1..], slot);
    }
  }

  /** A crash strands every branch that was waiting for an answer without a checkpointed handle. */
  lemma CrashStrands(g: Plan, s: State, slot: Slot)
    requires slot in s.branches && IsUnsettled(s.branches[slot])
    requires s.branches[slot].result.Some? ==> s.branches[slot].result.value.outcome == Cancelled
    requires AtRow(s.branches[slot].walk) && Current(s.branches[slot].walk).state.InFlight?
    requires !Current(s.branches[slot].walk).trigger.Checkpointed?
    ensures IsStranded(Apply(g, s, Crash), slot)
  {
  }

  // ---- a checkpointed handle ----

  /** At a running node with a checkpointed handle the loop polls; it neither starts nor gives up. */
  lemma CheckpointedHandleIsPolled(g: Plan, s: State, r: Result)
    requires Sound(g, s) && s.pc == Top && IsGoing(s)
    requires AtRow(s.top) && Current(s.top).state.InFlight? && Current(s.top).trigger.Checkpointed?
    requires !IsContainer(Current(s.top).node.kind)
    ensures Enabled(g, s, Poll(s.top.at.value, r)) <==> Fits(Current(s.top).node.kind, r)
    ensures forall n :: !Enabled(g, s, Start(n)) && !Enabled(g, s, GiveUp(n))
  {
    hide Sound, IsScheduled, Fits;
    TokenRow(g, s);
    SchedulerFindsTheToken(s.top, s.top.at.value);
    forall n ensures !Enabled(g, s, Start(n)) && !Enabled(g, s, GiveUp(n)) { SchedulerFindsTheToken(s.top, n); }
  }

  // ---- stale triggers ----

  ghost predicate HasCutOff(s: State) {
    || (exists id :: id in s.top.rows && s.top.rows[id].state.InFlight?
          && (s.top.rows[id].trigger.Triggering? || IsCutOff(s.top.rows[id])))
    || (exists slot, id :: slot in s.branches && id in s.branches[slot].walk.rows
          && s.branches[slot].walk.rows[id].state.InFlight? && s.branches[slot].walk.rows[id].trigger.Triggering?)
  }

  /** A trigger of a node that is not running any more. */
  ghost predicate HasStaleTrigger(s: State) {
    || (exists id :: id in s.top.rows && !s.top.rows[id].state.InFlight? && s.top.rows[id].trigger.Triggering?)
    || (exists slot, id :: slot in s.branches && id in s.branches[slot].walk.rows
          && !s.branches[slot].walk.rows[id].state.InFlight? && s.branches[slot].walk.rows[id].trigger.Triggering?)
  }

  /** Recovery ends a live run exactly when an attempt was cut off or a trigger is stale. */
  lemma RecoveryEndsTheRunExactlyWhen(g: Plan, s: State)
    requires !IsOver(s) && Enabled(g, s, Recover)
    ensures IsOver(Apply(g, s, Recover)) <==> HasCutOff(s) || HasStaleTrigger(s)
  {
    if HasCutOff(s) || HasStaleTrigger(s) {
      assert IsUncertain(s);
    }
  }

  /**
   An external verifier that answers at once leaves its trigger behind: the answer is durable,
   and yet a crash and a recovery right after it end the run in an error.
   */
  lemma SynchronousAnswerIsForgotten(g: Plan, s: State)
    requires Sound(g, s) && !IsOver(s) && s.pc.Holding? && !s.pc.result.Awaiting?
    requires s.pc.node in s.top.rows && s.top.rows[s.pc.node].trigger.Triggering?
    ensures var ls := [Persist, Crash, Recover];
      && IsRun(g, s, ls)
      && var s' := Exec(g, s, ls);
         s.pc.node in s'.top.rows && s'.top.rows[s.pc.node].result == Some(s.pc.result)
         && s'.ending == Some(UNCERTAIN)
  {
    hide Sound, IsUncertain;
    PersistLeavesTrigger(s, s.pc.node, s.pc.result);
    hide PersistResult;
    var s1 := Apply(g, s, Persist);
    TopRowIsUncertain(s1, s.pc.node);
    CrashThenRecover(g, s1);
    hide Apply;
    assert [Persist, Crash, Recover][1..] == [Crash, Recover];
  }

  lemma PersistLeavesTrigger(s: State, n: Id, r: Result)
    requires n in s.top.rows && !r.Awaiting?
    ensures var s' := PersistResult(s, n, r);
      n in s'.top.rows && s'.top.rows[n].trigger == s.top.rows[n].trigger && s'.top.rows[n].result == Some(r)
      && s'.status == s.status
  {
  }
}
