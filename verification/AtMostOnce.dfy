/**
 At-most-once execution. Every attempt is recorded before it is handed to the executor or
 verifier, no attempt is ever handed over twice, and an attempt whose answer was lost to a
 crash ends in an error: of the run, or of its branch. A checkpointed handle is only polled.
 */
module AtMostOnce {
  import opened Options
  import opened Graphs
  import opened Results
  import opened Walks
  import opened Reports
  import opened Machine
  import opened Tokens
  import opened Effects

  /** The highest attempt number of a node so far. */
  ghost function Started(s: State, place: Option<Slot>, node: Id): nat {
    match place
    case None => if node in s.top.rows then s.top.rows[node].attempts else 0
    case Some(slot) =>
      if slot in s.branches && node in s.branches[slot].walk.rows then s.branches[slot].walk.rows[node].attempts else 0
  }

  /** Some thread has begun this attempt and is about to hand it over. */
  ghost predicate IsPending(s: State, a: Attempt) {
    && a.generation == s.generation && a.number == Started(s, a.place, a.node)
    && match a.place
       case None => s.pc == Calling(a.node)
       case Some(slot) =>
         slot in s.threads && s.threads[slot] == Invoking && slot in s.branches
         && s.branches[slot].walk.at == Some(a.node)
  }

  /** The chance to hand this attempt over is gone for good. */
  ghost predicate IsLapsed(s: State, a: Attempt) {
    || a.generation < s.generation
    || (a.generation == s.generation && a.number <= Started(s, a.place, a.node) && !IsPending(s, a))
  }

  // ---- which labels begin a call and which make it ----

  /** No thread comes to the point of a call that was not there before. */
  ghost predicate NoNewCall(s: State, s': State) {
    && (s'.pc.Calling? ==> s'.pc == s.pc)
    && forall slot | slot in s'.threads && s'.threads[slot] == Invoking ::
         && slot in s.threads && s.threads[slot] == Invoking && slot in s.branches && slot in s'.branches
         && s'.branches[slot].walk.at == s.branches[slot].walk.at
  }

  lemma ThreadsHaveBranches(g: Plan, s: State)
    requires Sound(g, s)
    ensures forall slot | slot in s.threads :: slot in s.branches
  {
    hide SoundWalk, SoundPc, SoundBranches, ValidPlan, SoundBarrier, SoundThread;
  }

  lemma NoCallFromOutside(s: State, s': State)
    requires FromOutside(s, s') && (s'.pc.Calling? ==> s'.pc == s.pc)
    requires forall slot | slot in s.threads :: slot in s.branches
    ensures NoNewCall(s, s')
  {
  }

  /** A branch move other than a start that begins leaves its own thread away from a call. */
  lemma BranchMoveHasNoCall(g: Plan, s: State, l: Label)
    requires Sound(g, s) && Enabled(g, s, l) && IsBranchMove(l)
    requires l.StartBranch? ==> !ChooseStart(s, l.slot, l.limit).Begins?
    ensures NoNewCall(s, Apply(g, s, l))
  {
    hide Sound, OnlySlot, Enabled, Apply, NoNewCall;
    BranchMoveTouches(g, s, l);
    OwnThreadIsNotCalling(g, s, l);
    ThreadsHaveBranches(g, s);
    OneThreadNoCall(s, Apply(g, s, l), l.slot);
  }

  lemma OneThreadNoCall(s: State, s': State, slot: Slot)
    requires OnlySlot(s, s', slot) && slot in s'.threads && s'.threads[slot] != Invoking
    requires forall other | other in s.threads :: other in s.branches
    ensures NoNewCall(s, s')
  {
  }

  lemma OwnThreadIsNotCalling(g: Plan, s: State, l: Label)
    requires Enabled(g, s, l) && IsBranchMove(l)
    requires l.StartBranch? ==> !ChooseStart(s, l.slot, l.limit).Begins?
    ensures l.slot in Apply(g, s, l).threads && Apply(g, s, l).threads[l.slot] != Invoking
  {
    hide Enabled, Apply;
    hide Fits, Polled, Close, EdgesHaveRows, BlockedResult, BranchAttempt;
    hide ChooseBranchRoute, ChooseStart, CommitStart, PersistBranchResult, CommitBranchRoute;
    BranchApplies(g, s, l);
    if l.StartBranch? { TurnedIsNotCalling(s, l.slot, l.limit); }
    else if l.PersistBranch? { PersistedIsNotCalling(s, l.slot, s.threads[l.slot].result); }
    else if l.RouteBranch? {
      ChosenBranchRouteIsAllowed(s, l.slot, s.threads[l.slot].result);
      RoutedIsNotCalling(s, l.slot, ChooseBranchRoute(s, l.slot, s.threads[l.slot].result));
    }
  }

  lemma TurnedIsNotCalling(s: State, slot: Slot, limit: bool)
    requires HasBranchNode(s, slot) && !ChooseStart(s, slot, limit).Begins?
    ensures var s' := CommitStart(s, slot, ChooseStart(s, slot, limit));
      slot in s'.threads && s'.threads[slot] != Invoking
  {
  }

  lemma PersistedIsNotCalling(s: State, slot: Slot, r: Result)
    requires HasBranchNode(s, slot)
    ensures var s' := PersistBranchResult(s, slot, r); slot in s'.threads && s'.threads[slot] != Invoking
  {
    hide Settle, Checkpoint;
  }

  lemma RoutedIsNotCalling(s: State, slot: Slot, c: BranchChoice)
    requires HasThread(s, slot)
    requires c.Walks? ==> c.edge.from in s.branches[slot].walk.rows && c.edge.to in s.branches[slot].walk.rows
    ensures var s' := CommitBranchRoute(s, slot, c); slot in s'.threads && s'.threads[slot] != Invoking
  {
    hide Advance, Close;
  }

  ghost predicate IsBegin(s: State, l: Label) {
    || l.Start?
    || (l.StartBranch? && HasBranchNode(s, l.slot) && ChooseStart(s, l.slot, l.limit).Begins?)
  }

  lemma RestartForgetsPlaces(s: State, budget: Budget)
    ensures var s' := RestartFrom(s, budget);
      s'.threads == map[] && s'.pc == Idle && s'.invoked == s.invoked && s'.generation == s.generation + 1
  {
  }

  lemma StepHasNoCall(g: Plan, s: State, l: Label)
    requires Sound(g, s) && Enabled(g, s, l) && !IsBegin(s, l)
    ensures NoNewCall(s, Apply(g, s, l))
  {
    hide Sound, ChooseStart, FromOutside, RestartFrom;
    if l.Restart? { RestartForgetsPlaces(s, l.budget); }
    else {
      hide Apply, NoNewCall;
      if IsBranchMove(l) { BranchMoveHasNoCall(g, s, l); }
      else {
        ThreadsHaveBranches(g, s);
        OtherMovesFromOutside(g, s, l);
        NoCallFromOutside(s, Apply(g, s, l));
      }
    }
  }

  // ---- lapsed attempts stay lapsed ----

  lemma SameStarts(s: State, s': State, a: Attempt)
    requires SameTally(s.top, s'.top) && SameTallies(s.branches, s'.branches)
    ensures Started(s', a.place, a.node) == Started(s, a.place, a.node)
  {
  }

  lemma PendingWasPending(s: State, s': State, a: Attempt)
    requires NoNewCall(s, s') && s'.generation == s.generation && IsPending(s', a)
    requires Started(s', a.place, a.node) == Started(s, a.place, a.node)
    ensures IsPending(s, a)
  {
    hide Started;
  }

  lemma SameStartsKeepLapsed(s: State, s': State, a: Attempt)
    requires NoNewCall(s, s') && s'.generation == s.generation && IsLapsed(s, a)
    requires Started(s', a.place, a.node) == Started(s, a.place, a.node)
    ensures IsLapsed(s', a)
  {
    hide Started, NoNewCall, IsPending;
    if a.generation == s.generation && IsPending(s', a) { PendingWasPending(s, s', a); }
  }

  /** Advancing a walk leaves its attempt numbers alone. */
  lemma AdvanceKeepsAttempts(w: Walk, e: Edge, repair: bool)
    requires e.from in w.rows && e.to in w.rows
    ensures var w' := Advance(w, e, repair);
      w'.rows.Keys == w.rows.Keys && forall id | id in w.rows :: w'.rows[id].attempts == w.rows[id].attempts
  {
  }

  lemma MoveKeepsStarts(s: State, c: RouteChoice, a: Attempt)
    requires c.Moves? && c.edge.from in s.top.rows && c.edge.to in s.top.rows
    ensures var s' := CommitRoute(s, c);
      Started(s', a.place, a.node) == Started(s, a.place, a.node) && s'.generation == s.generation
  {
    hide Advance;
    AdvanceKeepsAttempts(s.top, c.edge, c.repair);
  }

  lemma WalkKeepsStarts(s: State, slot: Slot, c: BranchChoice, a: Attempt)
    requires slot in s.branches && c.Walks?
    requires c.edge.from in s.branches[slot].walk.rows && c.edge.to in s.branches[slot].walk.rows
    ensures var s' := CommitBranchRoute(s, slot, c);
      Started(s', a.place, a.node) == Started(s, a.place, a.node) && s'.generation == s.generation
  {
    hide Advance;
    AdvanceKeepsAttempts(s.branches[slot].walk, c.edge, c.repair);
  }

  lemma StartKeepsLapsed(g: Plan, s: State, n: Id, a: Attempt)
    requires Sound(g, s) && Enabled(g, s, Start(n)) && IsLapsed(s, a)
    ensures IsLapsed(StartAttempt(s, n), a)
  {
    hide Sound, IsRefused;
    NoThreadsAtTop(g, s);
    var s' := StartAttempt(s, n);
    if a.generation == s.generation {
      if a.place == None && a.node == n {
        assert Started(s', a.place, a.node) == Started(s, a.place, a.node) + 1;
      } else {
        assert Started(s', a.place, a.node) == Started(s, a.place, a.node);
        assert !IsPending(s', a);
      }
    }
  }

  lemma NoThreadsAtTop(g: Plan, s: State)
    requires Sound(g, s) && !s.pc.Pooling?
    ensures s.threads == map[]
  {
    hide SoundWalk, SoundPc, SoundBranches, ValidPlan, SoundBarrier, SoundThreads;
    NoThreadsOutsidePools(s);
  }

  lemma BeginBranchKeepsLapsed(s: State, slot: Slot, a: Attempt)
    requires HasBranchNode(s, slot) && IsLapsed(s, a)
    ensures IsLapsed(CommitStart(s, slot, Begins), a)
  {
    var s' := CommitStart(s, slot, Begins);
    if a.generation == s.generation {
      if a.place == Some(slot) {
        if a.node == NodeAt(s, slot) {
          assert Started(s', a.place, a.node) == Started(s, a.place, a.node) + 1;
        }
      } else {
        assert Started(s', a.place, a.node) == Started(s, a.place, a.node);
        assert IsPending(s', a) ==> IsPending(s, a);
      }
    }
  }

  lemma QuietKeepsStarts(s: State, s': State, a: Attempt)
    requires Quiet(s, s')
    ensures Started(s', a.place, a.node) == Started(s, a.place, a.node) && s'.generation == s.generation
  {
    hide SameTally, SameTallies, AddsOutcome, Started;
    SameStarts(s, s', a);
  }

  /** Every step within a run that begins no attempt leaves all attempt numbers alone. */
  lemma OtherStepsKeepStarts(g: Plan, s: State, l: Label, a: Attempt)
    requires Sound(g, s) && Enabled(g, s, l) && !IsBegin(s, l) && !l.Restart?
    ensures var s' := Apply(g, s, l);
      Started(s', a.place, a.node) == Started(s, a.place, a.node) && s'.generation == s.generation
  {
    hide Sound, Quiet, Started, ChooseRoute, ChooseBranchRoute, ChooseStart, ValidRoute, EdgesHaveRows;
    hide CommitRoute, CommitStart, CommitBranchRoute;
    if !IsCounting(l) {
      hide Enabled, Apply;
      StepIsQuiet(g, s, l);
      QuietKeepsStarts(s, Apply(g, s, l), a);
    } else if l.Route? {
      RouteChoices(g, s);
      ChosenRouteIsAllowed(g, s, s.pc.node);
      var c := ChooseRoute(g, s, s.pc.node);
      if c.Moves? { MoveKeepsStarts(s, c, a); } else { QuietKeepsStarts(s, CommitRoute(s, c), a); }
    } else if l.RouteBranch? {
      BranchRouteChoices(g, s, l.slot);
      ChosenBranchRouteIsAllowed(s, l.slot, s.threads[l.slot].result);
      var c := ChooseBranchRoute(s, l.slot, s.threads[l.slot].result);
      if c.Walks? { WalkKeepsStarts(s, l.slot, c, a); } else { QuietKeepsStarts(s, CommitBranchRoute(s, l.slot, c), a); }
    } else {
      BranchStartChoices(s, l.slot, l.limit);
      QuietKeepsStarts(s, CommitStart(s, l.slot, ChooseStart(s, l.slot, l.limit)), a);
    }
  }

  lemma RestartLapses(s: State, budget: Budget, a: Attempt)
    requires IsLapsed(s, a)
    ensures IsLapsed(RestartFrom(s, budget), a)
  {
    hide Started, IsPending;
    RestartForgetsPlaces(s, budget);
  }

  /** Once the chance is gone it never comes back, whatever happens. */
  lemma StepKeepsLapsed(g: Plan, s: State, l: Label, a: Attempt)
    requires Sound(g, s) && Enabled(g, s, l) && IsLapsed(s, a)
    ensures IsLapsed(Apply(g, s, l), a)
  {
    hide Sound, IsLapsed, NoNewCall, Started, StartAttempt, CommitStart, RestartFrom, ChooseStart, IsScheduled, IsRefused;
    if l.Restart? { RestartLapses(s, l.budget, a); }
    else if l.Start? { StartKeepsLapsed(g, s, l.node, a); }
    else if IsBegin(s, l) { BeginBranchKeepsLapsed(s, l.slot, a); }
    else {
      hide Enabled, Apply;
      OtherStepsKeepStarts(g, s, l, a);
      StepHasNoCall(g, s, l);
      SameStartsKeepLapsed(s, Apply(g, s, l), a);
    }
  }

  // ---- handing over ----

  /** The attempt that an answer label answers. */
  ghost function Handed(s: State, l: Label): (a: Option<Attempt>) {
    if l.Answer? && s.pc.Calling? && s.pc.node in s.top.rows then Some(MainAttempt(s, s.pc.node))
    else if l.AnswerBranch? && ValidBranchNode(s, l.slot) then Some(BranchAttempt(s, l.slot))
    else None
  }

  lemma InvokedGrows(g: Plan, s: State, l: Label)
    requires Sound(g, s) && Enabled(g, s, l)
    ensures Apply(g, s, l).invoked == match Handed(s, l) case None => s.invoked case Some(a) => s.invoked + [a]
  {
    hide Sound, MainAttempt, BranchAttempt, FromOutside, RestartFrom, Fits;
    if l.Restart? { RestartForgetsPlaces(s, l.budget); }
    else if !l.Answer? {
      hide Apply, Enabled;
      if IsBranchMove(l) { BranchMoveGrowsInvoked(g, s, l); } else { OtherMovesFromOutside(g, s, l); }
    }
  }

  lemma BranchMoveGrowsInvoked(g: Plan, s: State, l: Label)
    requires Sound(g, s) && Enabled(g, s, l) && IsBranchMove(l)
    ensures Apply(g, s, l).invoked == match Handed(s, l) case None => s.invoked case Some(a) => s.invoked + [a]
  {
    hide Enabled, Apply;
    hide Sound, MainAttempt, BranchAttempt, Fits, Polled, Close, EdgesHaveRows, BlockedResult, LookAtBranch;
    hide ChooseBranchRoute, ChooseStart, CommitStart, PersistBranchResult, CommitBranchRoute;
    BranchApplies(g, s, l);
    if l.StartBranch? || l.PersistBranch? || l.RouteBranch? { BranchWritesLeaveInvoked(g, s, l); }
  }

  lemma BranchWritesLeaveInvoked(g: Plan, s: State, l: Label)
    requires Enabled(g, s, l) && (l.StartBranch? || l.PersistBranch? || l.RouteBranch?)
    ensures Apply(g, s, l).invoked == s.invoked
  {
    hide BeginBranch, Settle, Checkpoint, Advance, Close, BranchAttempt, ChooseBranchRoute, ChooseStart, EdgesHaveRows;
    if l.RouteBranch? { ChosenBranchRouteIsAllowed(s, l.slot, s.threads[l.slot].result); }
  }

  /** Only an attempt that still has its chance is handed over, and then the chance is gone. */
  lemma HandingOverLapses(g: Plan, s: State, l: Label)
    requires Sound(g, s) && Enabled(g, s, l) && Handed(s, l).Some?
    ensures IsPending(s, Handed(s, l).value) && !IsLapsed(s, Handed(s, l).value)
    ensures IsLapsed(Apply(g, s, l), Handed(s, l).value)
  {
    hide Sound, Fits;
  }

  // ---- invariants ----

  ghost predicate IsDistinct(q: seq<Attempt>) { forall i, j | 0 <= i < j < |q| :: q[i] != q[j] }

  ghost predicate AllLapsed(s: State) { forall a | a in s.invoked :: IsLapsed(s, a) }

  ghost predicate HandedOnce(s: State) { IsDistinct(s.invoked) && AllLapsed(s) }

  lemma StepHandsOnce(g: Plan, s: State, l: Label)
    requires Sound(g, s) && HandedOnce(s) && Enabled(g, s, l)
    ensures HandedOnce(Apply(g, s, l))
  {
    hide Sound, Enabled, Apply, IsLapsed;
    InvokedGrows(g, s, l);
    var s' := Apply(g, s, l);
    if Handed(s, l).Some? { HandingOverLapses(g, s, l); }
    forall a | a in s'.invoked ensures IsLapsed(s', a) {
      if a in s.invoked { StepKeepsLapsed(g, s, l, a); }
    }
  }

  lemma {:induction false} RunHandsOnce(g: Plan, s: State, ls: seq<Label>)
    requires Sound(g, s) && HandedOnce(s) && IsRun(g, s, ls)
    ensures HandedOnce(Exec(g, s, ls))
    decreases |ls|
  {
    hide Sound, HandedOnce, Enabled, Apply;
    if ls != [] {
      StepHandsOnce(g, s, ls[0]);
      StepKeepsSound(g, s, ls[0]);
      RunHandsOnce(g, Apply(g, s, ls[0]), ls[1..]);
    }
  }

  /** Over any sequence of crashes, recoveries and restarts no attempt is handed over twice. */
  lemma NoAttemptIsHandedTwice(g: Plan, budget: Budget, s: State)
    requires Reachable(g, budget, s)
    ensures forall i, j | 0 <= i < j < |s.invoked| :: s.invoked[i] != s.invoked[j]
  {
    hide Sound, Enabled, Apply, IsRun, Exec, AllLapsed;
    var ls :| IsRun(g, Init(g, budget), ls) && Exec(g, Init(g, budget), ls) == s;
    InitIsSound(g, budget);
    assert AllLapsed(Init(g, budget)) by { NothingIsHanded(Init(g, budget)); }
    RunHandsOnce(g, Init(g, budget), ls);
  }

  lemma NothingIsHanded(s: State)
    requires s.invoked == []
    ensures AllLapsed(s)
  {
  }

  /** An attempt whose chance is gone is never handed over again, in no continuation of the run. */
  lemma {:induction false} LapsedIsNeverHanded(g: Plan, s: State, ls: seq<Label>, a: Attempt)
    requires Sound(g, s) && IsRun(g, s, ls) && IsLapsed(s, a)
    ensures s.invoked <= Exec(g, s, ls).invoked && a !in Exec(g, s, ls).invoked[|s.invoked|..]
    decreases |ls|
  {
    hide Sound, Enabled, Apply, IsLapsed;
    if ls != [] {
      var s1 := Apply(g, s, ls[0]);
      StepKeepsSound(g, s, ls[0]);
      StepKeepsLapsed(g, s, ls[0], a);
      InvokedGrows(g, s, ls[0]);
      if Handed(s, ls[0]).Some? { HandingOverLapses(g, s, ls[0]); }
      LapsedIsNeverHanded(g, s1, ls[1..], a);
      var after := Exec(g, s, ls).invoked;
      assert after[|s.invoked|..] == s1.invoked[|s.invoked|..] + after[|s1.invoked|..];
    }
  }

  /** A crash takes the chance of every attempt begun so far. */
  lemma CrashLapses(g: Plan, s: State, a: Attempt)
    requires a.generation == s.generation && a.number <= Started(s, a.place, a.node)
    ensures IsLapsed(Apply(g, s, Crash), a)
  {
  }
}
