/**
 Barriers and endings: attempts start only while the run is going, every ending is a triple the
 FinalReport validator accepts, and a frozen report never changes. Status, barrier and ending go
 together, and a terminal run stays as it is, in every run but one in which a pause is stored
 after something else has taken its place: the code reads the pause in one transaction and
 stores it in another.
 */
module Discipline {
  import opened Options
  import opened Graphs
  import opened Results
  import opened Walks
  import opened Reports
  import opened Machine
  import opened Tokens
  import opened Effects

  /** A terminal run has an ending, endings and reports are reportable, and no terminal run about to be parked lacks both report and freeze. */
  ghost predicate SoundEnding(s: State) {
    && (IsOver(s) ==> s.ending.Some? && s.status == Terminal(s.ending.value.status))
    && (s.ending.Some? ==> IsReportable(s.ending.value))
    && (s.report.Some? ==> IsReportable(s.report.value))
    && IsCovered(s)
  }

  ghost predicate IsCovered(s: State) { s.pc.Parking? && IsOver(s) ==> s.report.Some? || s.freezing }

  /** How a step treats the runs row and the reports row. */
  ghost predicate KeepsRunRow(s: State, s': State) {
    && s'.status == s.status && s'.barrier == s.barrier && s'.ending == s.ending
    && (s'.freezing ==> s.freezing)
  }

  ghost predicate MovesStatus(s: State, s': State) {
    && !IsOver(s) && !IsOver(s') && (s'.status == Paused ==> s.status == Paused && s'.barrier == s.barrier)
    && s'.ending == s.ending && s'.freezing == s.freezing
  }

  ghost predicate EndsRun(s: State, s': State) {
    && !IsOver(s) && s'.ending.Some? && IsReportable(s'.ending.value)
    && s'.status == Terminal(s'.ending.value.status) && s'.freezing
  }

  /** The transaction of `_pause_at_safe_point`, whatever it finds. */
  ghost predicate StoresPause(s: State, s': State) {
    && s.pc.Parking? && !s'.pc.Parking?
    && s'.status == Paused && s'.barrier == s.barrier && s'.ending == s.ending && s'.freezing == s.freezing
  }

  ghost predicate GoodStep(s: State, s': State) {
    KeepsRunRow(s, s') || MovesStatus(s, s') || EndsRun(s, s') || StoresPause(s, s')
  }

  lemma FinishIsGood(s: State, e: Ending)
    requires IsReportable(e)
    ensures GoodStep(s, FinishRun(s, e)) && FinishRun(s, e).report == s.report
    ensures !StoresPause(s, FinishRun(s, e))
  {
  }

  lemma EndingIsReportable(r: Result)
    requires ValidResult(r) && !r.Awaiting?
    ensures IsReportable(EndingFor(r))
  {
  }

  lemma HonorIsGood(s: State)
    requires SoundBarrier(s.status, s.barrier)
    ensures GoodStep(s, HonorBarrier(s)) && HonorBarrier(s).report == s.report
  {
  }

  lemma ChosenEndingIsReportable(g: Plan, s: State, n: Id)
    requires ValidRoute(g, s, n) && ValidResult(s.top.rows[n].result.value)
    ensures ChooseRoute(g, s, n).Ends? ==> IsReportable(ChooseRoute(g, s, n).ending)
  {
    hide EndingFor, IsReportable, Select, IsRepair, ValidResult;
    EndingIsReportable(s.top.rows[n].result.value);
    ExhaustionIsReportable();
  }

  lemma ExhaustionIsReportable()
    ensures IsReportable(EXHAUSTED) && IsReportable(INTERRUPTED) && IsReportable(UNCERTAIN) && IsReportable(CANCELLED)
  {
  }

  lemma RoutedResultIsValid(g: Plan, s: State)
    requires Sound(g, s) && s.pc.Routing?
    ensures ValidRoute(g, s, s.pc.node) && ValidResult(s.top.rows[s.pc.node].result.value)
  {
    hide ValidResult, SoundBranches, SoundThreads, ValidPlan, SoundBarrier;
    RouteKeepsSound(g, s);
  }

  lemma RouteIsGood(g: Plan, s: State)
    requires Sound(g, s) && s.pc.Routing?
    ensures ValidRoute(g, s, s.pc.node)
    ensures var s' := CommitRoute(s, ChooseRoute(g, s, s.pc.node)); GoodStep(s, s') && s'.report == s.report
  {
    hide ChooseRoute, Sound, FinishRun, HonorBarrier, Advance, ValidResult, IsReportable;
    RoutedResultIsValid(g, s);
    TokenRow(g, s);
    ChosenEndingIsReportable(g, s, s.pc.node);
    HonorIsGood(s);
    match ChooseRoute(g, s, s.pc.node)
    case Held =>
    case Ends(e) => FinishIsGood(s, e);
    case Moves(e, _) => ChosenEdgeLeavesTheToken(g, s, s.pc.node);
  }

  lemma LateRouteIsGood(g: Plan, s: State, exhausted: bool)
    requires Sound(g, s) && s.pc.Routing?
    ensures ValidRoute(g, s, s.pc.node)
    ensures var s' := CommitLateRoute(s, ChooseLateRoute(g, s, s.pc.node, exhausted)); GoodStep(s, s') && s'.report == s.report
  {
    hide ChooseRoute, Sound, FinishRun, ValidResult, IsReportable, GoodStep, Select, ValidRoute;
    RoutedResultIsValid(g, s);
    SameRoute(g, s, s.pc.node);
    ChosenEndingIsReportable(g, s.(barrier := NoBarrier), s.pc.node);
    var c := ChooseLateRoute(g, s, s.pc.node, exhausted);
    if c.Ends? {
      FinishIsGood(s, c.ending);
      GoodStepMovesOn(s, FinishRun(s, c.ending), CommitLateRoute(s, c));
    } else { SameRunRowIsGood(s, s.(pc := Top)); }
  }

  lemma PlaceStepIsGood(g: Plan, s: State, l: Label)
    requires Sound(g, s) && Enabled(g, s, l) && IsPlaceMove(l)
    ensures var s' := Apply(g, s, l); GoodStep(s, s') && s'.report == s.report
  {
    hide Enabled, Apply;
    hide Sound, FinishRun, HonorBarrier, CancelBranches, Fits, IsReportable, JoinResult, IsScheduled, GoodStep, IsRefused;
    hide ChooseLateRoute, CommitLateRoute;
    PlaceApplies(g, s, l);
    var s' := Apply(g, s, l);
    if l.Quit? || l.HitLimit? || l.Refuse? || l.GiveUp? || l.HitNodeLimit? {
      var e := if l.Quit? then INTERRUPTED else if l.GiveUp? then UNCERTAIN else EXHAUSTED;
      ExhaustionIsReportable();
      FinishIsGood(s, e);
      GoodStepMovesOn(s, FinishRun(s, e), s');
    } else if l.LateRoute? {
      LateRouteIsGood(g, s, l.exhausted);
    } else if l.Honor? {
      HonorStepIsGood(g, s);
    } else if l.Park? {
      ParkIsGood(g, s);
    } else {
      ForgettingIsGood(s, s');
    }
  }

  lemma HonorStepIsGood(g: Plan, s: State)
    requires Sound(g, s) && s.pc.Settling?
    ensures var s' := Apply(g, s, Honor); GoodStep(s, s') && s'.report == s.report
  {
    hide Sound, HonorBarrier, GoodStep;
    TokenRow(g, s);
    HonorIsGood(s);
    ForgettingIsGood(s, Apply(g, s, Honor));
  }

  lemma ParkIsGood(g: Plan, s: State)
    requires s.pc.Parking?
    ensures var s' := Apply(g, s, Park); GoodStep(s, s') && s'.report == s.report
  {
  }

  lemma AroundStepIsGood(g: Plan, s: State, l: Label)
    requires Sound(g, s) && Enabled(g, s, l) && IsAroundMove(l) && !l.Restart?
    ensures GoodStep(s, Apply(g, s, l))
    ensures Apply(g, s, l).report == if l.Freeze? && s.report.None? && IsOver(s) then s.ending else s.report
  {
    hide Enabled, Apply;
    hide Sound, FinishRun, CancelBranches, IsUncertain, IsReportable, GoodStep, ApplyControl;
    hide StartAttempt, PersistResult, HonorBarrier, AfterPool, CommitRoute, ChooseRoute, JoinResult, CommitStart, ChooseStart, RestartFrom;
    hide PollBranchHandle, PersistBranchResult, CommitBranchRoute, ChooseBranchRoute, CloseBranch, IsAdmission, IsScheduled;
    AroundApplies(g, s, l);
    ExhaustionIsReportable();
    if l.Control? { ControlIsGood(g, s, l.action); }
    else if l.Recover? { RecoverIsGood(g, s); }
    else if l.Cancel? {
      CancelIsGood(s);
      ForgettingIsGood(s, s);
    } else { ForgettingIsGood(s, Apply(g, s, l)); }
  }

  lemma RecoverIsGood(g: Plan, s: State)
    requires Enabled(g, s, Recover)
    ensures GoodStep(s, Apply(g, s, Recover)) && Apply(g, s, Recover).report == s.report
  {
    hide FinishRun, IsUncertain, IsReportable, GoodStep;
    ExhaustionIsReportable();
    FinishIsGood(s, UNCERTAIN);
    ForgettingIsGood(s, s.(pc := Idle));
    if IsUncertain(s) { GoodStepMovesOn(s, FinishRun(s, UNCERTAIN), Apply(g, s, Recover)); }
  }

  lemma ControlIsGood(g: Plan, s: State, a: Action)
    requires Sound(g, s)
    ensures GoodStep(s, ApplyControl(s, a)) && ApplyControl(s, a).report == s.report
  {
    hide Sound;
    TokenRow(g, s);
  }

  lemma CancelIsGood(s: State)
    ensures var s' := FinishRun(s.(branches := CancelBranches(s.branches, true)), CANCELLED);
      GoodStep(s, s') && s'.report == s.report
  {
    hide CancelBranches, IsReportable;
    ExhaustionIsReportable();
  }

  lemma ForgettingIsGood(s: State, s': State)
    ensures s'.status == s.status && s'.barrier == s.barrier && s'.ending == s.ending && (s'.freezing ==> s.freezing)
      ==> GoodStep(s, s')
  {
  }

  lemma GoodStepMovesOn(s: State, t: State, s': State)
    requires GoodStep(s, t) && !StoresPause(s, t)
    requires s'.status == t.status && s'.barrier == t.barrier && s'.ending == t.ending && s'.freezing == t.freezing
    ensures GoodStep(s, s')
  {
  }

  lemma WalkStepIsGood(g: Plan, s: State, l: Label)
    requires Sound(g, s) && Enabled(g, s, l)
    requires !IsPlaceMove(l) && !IsAroundMove(l) && !IsBranchMove(l)
    ensures var s' := Apply(g, s, l); GoodStep(s, s') && s'.report == s.report
  {
    hide Enabled, Apply;
    hide Sound, CommitRoute, ChooseRoute, Fits, Begin, Settle, Checkpoint, CancelBranches, Aggregate, HasRaised;
    hide IsScheduled, IsUnresolved, IsAdmission, IsReportable;
    WorkApplies(g, s, l);
    if l.Route? { RouteIsGood(g, s); }
  }

  /** Every step but a restart leaves the runs row alone, moves its status, ends the run once, or stores a pause. */
  lemma StepIsGood(g: Plan, s: State, l: Label)
    requires Sound(g, s) && Enabled(g, s, l) && !l.Restart?
    ensures GoodStep(s, Apply(g, s, l))
    ensures Apply(g, s, l).report == if l.Freeze? && s.report.None? && IsOver(s) then s.ending else s.report
  {
    hide Sound, Enabled, Apply, GoodStep;
    if IsPlaceMove(l) { PlaceStepIsGood(g, s, l); }
    else if IsAroundMove(l) { AroundStepIsGood(g, s, l); }
    else if IsBranchMove(l) {
      BranchMoveTouches(g, s, l);
      SameRunRowIsGood(s, Apply(g, s, l));
    }
    else { WalkStepIsGood(g, s, l); }
  }

  lemma SameRunRowIsGood(s: State, s': State)
    requires s'.status == s.status && s'.barrier == s.barrier && s'.ending == s.ending && s'.freezing == s.freezing
    ensures GoodStep(s, s')
  {
  }

  /** A pause is only seen in a live run, so a terminal one about to be parked has just ended. */
  lemma ParkingStaysCovered(g: Plan, s: State, l: Label)
    requires Sound(g, s) && IsCovered(s) && SoundEnding(s) && Enabled(g, s, l) && !l.Restart?
    ensures IsCovered(Apply(g, s, l))
    ensures !s.pc.Parking? && IsOver(s) ==> !Apply(g, s, l).pc.Parking?
  {
    hide Sound, IsReportable;
    TokenRow(g, s);
    if IsBranchMove(l) {
      hide Apply, Enabled;
      BranchMoveTouches(g, s, l);
    }
    else if IsPlaceMove(l) { PlaceMoveStaysCovered(g, s, l); }
    else if IsAroundMove(l) {
      hide CancelBranches, IsUncertain;
      if l.Control? { ControlKeepsFreezing(s, l.action); }
    }
    else { WorkMoveStaysCovered(g, s, l); }
  }

  lemma PlaceMoveStaysCovered(g: Plan, s: State, l: Label)
    requires SoundBarrier(s.status, s.barrier) && IsCovered(s) && Enabled(g, s, l) && IsPlaceMove(l)
    ensures IsCovered(Apply(g, s, l))
    ensures IsOver(s) ==> !Apply(g, s, l).pc.Parking?
  {
    hide Enabled, Apply;
    hide CancelBranches, FinishRun, JoinResult, IsScheduled, Fits, IsRefused, MainAttempt, ChooseLateRoute, ValidRoute;
    PlaceApplies(g, s, l);
    FinishKeepsBranches(s, UNCERTAIN);
  }

  lemma WorkMoveStaysCovered(g: Plan, s: State, l: Label)
    requires SoundBarrier(s.status, s.barrier) && IsCovered(s) && Enabled(g, s, l) && IsWorkMove(l)
    ensures !s.pc.Parking? && (IsOver(s) || !l.Route? ==> !Apply(g, s, l).pc.Parking?) && IsCovered(Apply(g, s, l))
  {
    hide Enabled, Apply;
    hide AfterPool, Fits, IsRefused, ChooseRoute, IsUnresolved, UnsettledOf, IsAdmission, StartAttempt, PersistResult;
    WorkApplies(g, s, l);
    if ClosesPool(l) { AfterPoolIsNotParking(s, s.pc.node, s.pc.first, IsStopRead(s, l)); }
    else if l.Start? { LoopWritesKeepBranches(s, l.node, BOUNDARY); }
    else if l.Persist? { LoopWritesKeepBranches(s, s.pc.node, s.pc.result); }
    else if l.Route? { RouteStaysCovered(s, ChooseRoute(g, s, s.pc.node)); }
  }

  lemma AfterPoolIsNotParking(s: State, n: Id, first: bool, stopped: bool)
    requires n in s.top.rows
    ensures !AfterPool(s, n, first, stopped).pc.Parking?
  {
    hide CancelBranches, Aggregate, HasRaised;
  }

  lemma RouteStaysCovered(s: State, c: RouteChoice)
    requires SoundBarrier(s.status, s.barrier)
    requires c.Moves? ==> c.edge.from in s.top.rows && c.edge.to in s.top.rows
    ensures CommitRoute(s, c).pc.Parking? ==> !IsOver(CommitRoute(s, c)) && !IsOver(s)
  {
    hide Advance, FinishRun;
  }

  lemma GoodStepKeepsEnding(s: State, s': State)
    requires SoundEnding(s) && GoodStep(s, s') && IsCovered(s')
    requires s'.report == s.report || (s.report.None? && s'.report == s.ending && IsOver(s))
    ensures SoundEnding(s')
    ensures IsOver(s) && !s.pc.Parking? ==> s'.status == s.status && s'.ending == s.ending
    ensures s.report.Some? ==> s'.report == s.report
  {
    hide IsReportable;
  }

  lemma StepKeepsEnding(g: Plan, s: State, l: Label)
    requires Sound(g, s) && SoundEnding(s) && Enabled(g, s, l)
    ensures SoundEnding(Apply(g, s, l))
    ensures !l.Restart? && IsOver(s) && !s.pc.Parking? ==>
      var s' := Apply(g, s, l); s'.status == s.status && s'.ending == s.ending && !s'.pc.Parking?
    ensures !l.Restart? && s.report.Some? ==> Apply(g, s, l).report == s.report
  {
    if l.Restart? {
      hide Sound, Inherit, InheritBranches;
    } else {
      hide Sound, Apply, Enabled, GoodStep, SoundEnding, IsCovered;
      StepIsGood(g, s, l);
      EndingIsCovered(s);
      ParkingStaysCovered(g, s, l);
      GoodStepKeepsEnding(s, Apply(g, s, l));
    }
  }

  lemma EndingIsCovered(s: State)
    requires SoundEnding(s)
    ensures IsCovered(s)
  {
  }

  lemma {:induction false} RunKeepsEnding(g: Plan, s: State, ls: seq<Label>)
    requires Sound(g, s) && SoundEnding(s) && IsRun(g, s, ls)
    ensures SoundEnding(Exec(g, s, ls))
    decreases |ls|
  {
    hide Sound, SoundEnding, Enabled, Apply;
    if ls != [] {
      StepKeepsEnding(g, s, ls[0]);
      StepKeepsSound(g, s, ls[0]);
      RunKeepsEnding(g, Apply(g, s, ls[0]), ls[1..]);
    }
  }

  // ---- main results ----

  ghost predicate WithoutRestart(ls: seq<Label>) { forall l | l in ls :: !l.Restart? }

  /** In every reachable state an ending fits its status and is reportable, and only a paused run may have lost its barrier. */
  lemma ReachableIsDisciplined(g: Plan, budget: Budget, s: State)
    requires Reachable(g, budget, s)
    ensures SoundBarrier(s.status, s.barrier)
    ensures IsOver(s) ==> s.ending.Some? && s.status == Terminal(s.ending.value.status)
    ensures s.ending.Some? ==> IsReportable(s.ending.value)
    ensures s.report.Some? ==> IsReportable(s.report.value)
  {
    hide Sound, Enabled, Apply, IsRun, Exec;
    var ls :| IsRun(g, Init(g, budget), ls) && Exec(g, Init(g, budget), ls) == s;
    InitIsSound(g, budget);
    RunKeepsSound(g, Init(g, budget), ls);
    RunKeepsEnding(g, Init(g, budget), ls);
    TokenRow(g, s);
  }

  /** Status, barrier, ending and report agree. */
  ghost predicate IsDisciplined(s: State) {
    && (s.status == Paused ==> s.barrier == PauseBarrier)
    && (IsOver(s) <==> s.ending.Some?)
    && (s.report.Some? ==> s.report == s.ending)
    && (s.freezing ==> IsOver(s))
  }

  /** A pause is stored although an interrupt or a cancel has come since it was read. */
  predicate StoresLate(s: State, l: Label) { l.Park? && s.barrier != PauseBarrier }

  /** They go on agreeing, except when a pause is stored late. */
  lemma StepIsDisciplinedExactlyWhen(g: Plan, s: State, l: Label)
    requires Sound(g, s) && SoundEnding(s) && IsDisciplined(s) && Enabled(g, s, l)
    ensures IsDisciplined(Apply(g, s, l)) <==> !StoresLate(s, l)
  {
    if l.Restart? { hide Sound, Inherit, InheritBranches; }
    else if l.Park? {
      hide Sound;
      TokenRow(g, s);
      ParkIsDisciplined(g, s);
    } else {
      hide Sound, Apply, Enabled, IsReportable;
      StepIsGood(g, s, l);
      OnlyParkingStores(g, s, l);
      TokenRow(g, s);
    }
  }

  lemma ParkIsDisciplined(g: Plan, s: State)
    requires s.pc.Parking? && SoundBarrier(s.status, s.barrier) && IsDisciplined(s)
    ensures IsDisciplined(Apply(g, s, Park)) <==> s.barrier == PauseBarrier
  {
  }

  lemma OnlyParkingStores(g: Plan, s: State, l: Label)
    requires Sound(g, s) && Enabled(g, s, l) && !l.Restart? && !l.Park?
    ensures StoresPause(s, Apply(g, s, l)) ==> s.status == Paused
  {
    hide Sound, Enabled, Apply;
    if s.pc.Parking? {
      if IsBranchMove(l) { BranchMoveTouches(g, s, l); }
      else {
        OnlyControlsWhileParking(g, s, l);
        ControlStoresNoPause(g, s, l);
      }
    }
  }

  lemma OnlyControlsWhileParking(g: Plan, s: State, l: Label)
    requires Enabled(g, s, l) && s.pc.Parking? && !l.Park? && !IsBranchMove(l) && !l.Restart?
    ensures IsAroundMove(l) && !l.Recover?
  {
    hide Fits, IsScheduled, ValidRoute, IsUnresolved, IsAdmission, UnsettledOf, IsRefused;
  }

  lemma ControlStoresNoPause(g: Plan, s: State, l: Label)
    requires Enabled(g, s, l) && IsAroundMove(l) && !l.Recover? && !l.Restart?
    ensures Apply(g, s, l).status == Paused ==> s.status == Paused
  {
    hide Enabled, Apply, CancelBranches, IsUncertain, RestartFrom;
    AroundApplies(g, s, l);
  }

  /** At every step of the run. */
  ghost predicate StaysDisciplined(g: Plan, s: State, ls: seq<Label>)
    requires IsRun(g, s, ls)
    decreases |ls|
  {
    IsDisciplined(s) && (ls != [] ==> StaysDisciplined(g, Apply(g, s, ls[0]), ls[1..]))
  }

  ghost predicate NeverStoresLate(g: Plan, s: State, ls: seq<Label>)
    requires IsRun(g, s, ls)
    decreases |ls|
  {
    ls == [] || (!StoresLate(s, ls[0]) && NeverStoresLate(g, Apply(g, s, ls[0]), ls[1..]))
  }

  /** In every run: status, barrier, ending and report agree throughout if and only if no pause is stored late. */
  lemma {:induction false} RunIsDisciplinedExactlyWhen(g: Plan, s: State, ls: seq<Label>)
    requires Sound(g, s) && SoundEnding(s) && IsDisciplined(s) && IsRun(g, s, ls)
    ensures StaysDisciplined(g, s, ls) <==> NeverStoresLate(g, s, ls)
    decreases |ls|
  {
    hide Sound, SoundEnding, IsDisciplined, StoresLate, Enabled, Apply;
    if ls != [] {
      StepIsDisciplinedExactlyWhen(g, s, ls[0]);
      StepKeepsSound(g, s, ls[0]);
      StepKeepsEnding(g, s, ls[0]);
      if StoresLate(s, ls[0]) { Undisciplined(g, Apply(g, s, ls[0]), ls[1..]); }
      else { RunIsDisciplinedExactlyWhen(g, Apply(g, s, ls[0]), ls[1..]); }
    }
  }

  lemma Undisciplined(g: Plan, s: State, ls: seq<Label>)
    requires IsRun(g, s, ls) && !IsDisciplined(s)
    ensures !StaysDisciplined(g, s, ls)
  {
    hide IsDisciplined;
  }

  /**
   However long the process goes on, a terminal run that is not about to be parked keeps its
   status and ending, and every run keeps its frozen report.
   */
  lemma {:induction false} EndingIsFinal(g: Plan, s: State, ls: seq<Label>)
    requires Sound(g, s) && SoundEnding(s) && IsRun(g, s, ls) && WithoutRestart(ls)
    ensures IsOver(s) && !s.pc.Parking? ==> Exec(g, s, ls).status == s.status && Exec(g, s, ls).ending == s.ending
    ensures s.report.Some? ==> Exec(g, s, ls).report == s.report
    decreases |ls|
  {
    hide Sound, SoundEnding, Enabled, Apply;
    if ls != [] {
      StepKeepsEnding(g, s, ls[0]);
      StepKeepsSound(g, s, ls[0]);
      EndingIsFinal(g, Apply(g, s, ls[0]), ls[1..]);
    }
  }

  ghost predicate StaysOver(g: Plan, s: State, ls: seq<Label>)
    requires IsRun(g, s, ls)
  {
    Exec(g, s, ls).status == s.status && Exec(g, s, ls).ending == s.ending
  }

  /** A terminal run stays terminal if and only if the loop is not between reading a pause and storing it. */
  lemma EndingIsFinalExactlyWhen(g: Plan, s: State)
    requires Sound(g, s) && SoundEnding(s) && IsOver(s)
    ensures (forall ls | IsRun(g, s, ls) && WithoutRestart(ls) :: StaysOver(g, s, ls)) <==> !s.pc.Parking?
  {
    hide Sound, SoundEnding;
    if s.pc.Parking? {
      assert [Park][1..] == [];
      assert IsRun(g, Apply(g, s, Park), []);
      assert Exec(g, s, [Park]) == Apply(g, s, Park);
      assert IsRun(g, s, [Park]) && WithoutRestart([Park]) && !StaysOver(g, s, [Park]);
    } else {
      forall ls | IsRun(g, s, ls) && WithoutRestart(ls) ensures StaysOver(g, s, ls) { EndingIsFinal(g, s, ls); }
    }
  }

  /** A live run, its loop at rest, that nobody has touched. */
  ghost predicate IsFresh(s: State) { s.pc == Idle && IsGoing(s) && s.ending.None? && s.report.None? }

  lemma ThreeSteps(g: Plan, s: State, a: Label, b: Label, c: Label)
    requires Enabled(g, s, a) && Enabled(g, Apply(g, s, a), b) && Enabled(g, Apply(g, Apply(g, s, a), b), c)
    ensures IsRun(g, s, [a, b, c]) && Exec(g, s, [a, b, c]) == Apply(g, Apply(g, Apply(g, s, a), b), c)
  {
    hide Enabled, Apply;
    TwoSteps(g, Apply(g, s, a), b, c);
    OneStepMore(g, s, a, [b, c]);
    assert [a] + [b, c] == [a, b, c];
  }

  lemma PauseIsSeen(g: Plan, s: State)
    requires IsFresh(s)
    ensures var ls := [Enter, Control(Pause), SeePause];
      IsRun(g, s, ls) && Exec(g, s, ls) == s.(status := PauseRequested, barrier := PauseBarrier, pc := Parking(true))
  {
    var s1 := Apply(g, s, Enter);
    var s2 := Apply(g, s1, Control(Pause));
    hide CancelBranches, IsUncertain, RestartFrom;
    assert Enabled(g, s2, SeePause) && Apply(g, s2, SeePause) == s.(status := PauseRequested, barrier := PauseBarrier, pc := Parking(true));
    hide Enabled, Apply;
    ThreeSteps(g, s, Enter, Control(Pause), SeePause);
  }

  /** The cancel comes, the report is frozen, and the pause is stored over both. */
  lemma CancelIsOverwritten(g: Plan, s: State)
    requires s.pc == Parking(true) && !IsOver(s) && s.report.None?
    ensures var ls := [Cancel, Freeze, Park];
      IsRun(g, s, ls)
      && var s' := Exec(g, s, ls);
         s'.status == Paused && s'.pc == Idle && s'.ending == Some(CANCELLED) && s'.report == Some(CANCELLED)
  {
    hide CancelBranches, IsUncertain, RestartFrom;
    var s1 := Apply(g, s, Cancel);
    assert s1.pc == s.pc && s1.status == Terminal(RunCancelled) && s1.ending == Some(CANCELLED) && s1.freezing && s1.report.None?;
    FreezeThenPark(g, s1);
    hide Enabled, Apply;
    ThreeSteps(g, s, Cancel, Freeze, Park);
  }

  lemma FreezeThenPark(g: Plan, s: State)
    requires s.freezing && IsOver(s) && s.report.None? && s.pc == Parking(true)
    ensures Enabled(g, s, Freeze) && Enabled(g, Apply(g, s, Freeze), Park)
    ensures var s' := Apply(g, Apply(g, s, Freeze), Park);
      s'.status == Paused && s'.pc == Idle && s'.ending == s.ending && s'.report == s.ending
  {
    hide CancelBranches, IsUncertain, RestartFrom;
  }

  lemma ResumedRunEnds(g: Plan, s: State)
    requires s.status == Paused && s.pc == Idle
    ensures var ls := [Control(ResumeRun), Enter, HitLimit];
      IsRun(g, s, ls)
      && var s' := Exec(g, s, ls);
         s'.status == Terminal(RunFailed) && s'.ending == Some(EXHAUSTED) && s'.report == s.report
  {
    hide CancelBranches, IsUncertain, RestartFrom;
    var s1 := Apply(g, s, Control(ResumeRun));
    var s2 := Apply(g, s1, Enter);
    assert s2.pc == Top && s2.status == Running && s2.report == s.report;
    assert Enabled(g, s2, HitLimit) && Apply(g, s2, HitLimit).ending == Some(EXHAUSTED);
    hide Enabled;
    ThreeSteps(g, s, Control(ResumeRun), Enter, HitLimit);
  }

  /**
   It happens, in every graph: a pause stored over a cancel lets the cancelled run be resumed, and
   it ends another way under a report that says it was cancelled.
   */
  lemma CancelledRunCanGoOn(g: Plan, budget: Budget)
    requires ValidGraph(g)
    ensures var ls := [Enter, Control(Pause), SeePause] + [Cancel, Freeze, Park] + [Control(ResumeRun), Enter, HitLimit];
      IsRun(g, Init(g, budget), ls)
      && var s := Exec(g, Init(g, budget), ls);
         s.status == Terminal(RunFailed) && s.ending == Some(EXHAUSTED) && s.report == Some(CANCELLED)
  {
    hide ValidGraph, OrderOf, PlanOf, InitBranches, Fresh, Enabled, Apply, IsRun, Exec;
    var s0 := Init(g, budget);
    PauseIsSeen(g, s0);
    var s1 := Exec(g, s0, [Enter, Control(Pause), SeePause]);
    CancelIsOverwritten(g, s1);
    var s2 := Exec(g, s1, [Cancel, Freeze, Park]);
    ResumedRunEnds(g, s2);
    RunsChain(g, s0, [Enter, Control(Pause), SeePause], [Cancel, Freeze, Park]);
    RunsChain(g, s0, [Enter, Control(Pause), SeePause] + [Cancel, Freeze, Park], [Control(ResumeRun), Enter, HitLimit]);
  }

  /**
   The freeze is a second transaction after the one that ends the run. A crash between the two
   leaves a terminal run whose report no later step ever writes.
   */
  lemma {:induction false} LostReportStaysLost(g: Plan, s: State, ls: seq<Label>)
    requires Sound(g, s) && SoundEnding(s) && IsRun(g, s, ls) && WithoutRestart(ls)
    requires IsOver(s) && s.report.None? && !s.freezing
    ensures IsOver(Exec(g, s, ls)) && Exec(g, s, ls).report.None?
    decreases |ls|
  {
    hide Sound, SoundEnding, Apply;
    if ls != [] {
      EndingIsCovered(s);
      StepIsGood(g, s, ls[0]);
      StepKeepsEnding(g, s, ls[0]);
      StepKeepsSound(g, s, ls[0]);
      LostReportStaysLost(g, Apply(g, s, ls[0]), ls[1..]);
    }
  }

  /** The loss happens: in every graph the clock can end a run that crashes before the freeze. */
  lemma ReportCanBeLost(g: Plan, budget: Budget)
    requires ValidGraph(g)
    ensures var ls := [Enter, HitLimit, Crash];
      IsRun(g, Init(g, budget), ls)
      && var s := Exec(g, Init(g, budget), ls); IsOver(s) && s.report.None? && !s.freezing
  {
    hide ValidGraph, OrderOf, PlanOf;
    var s0 := Init(g, budget);
    var s1 := Apply(g, s0, Enter);
    var s2 := Apply(g, s1, HitLimit);
    var s3 := Apply(g, s2, Crash);
    assert [Enter, HitLimit, Crash][1..] == [HitLimit, Crash];
    assert [HitLimit, Crash][1..] == [Crash];
    assert IsRun(g, s3, []);
    assert IsRun(g, s2, [Crash]);
    assert IsRun(g, s1, [HitLimit, Crash]);
  }

  /** Over, without a report, and nobody is about to freeze one. */
  ghost predicate IsReportLost(s: State) { IsOver(s) && s.report.None? && !s.freezing }

  /** The report is lost by a crash before the freeze, and by nothing else. */
  lemma ReportIsLostExactlyBy(g: Plan, s: State, l: Label)
    requires Sound(g, s) && SoundEnding(s) && Enabled(g, s, l) && !l.Restart? && !IsReportLost(s)
    ensures IsReportLost(Apply(g, s, l)) <==> l.Crash? && IsOver(s) && s.freezing && s.report.None?
  {
    hide Sound, Apply, Enabled, IsReportable;
    StepIsGood(g, s, l);
    if l.Crash? { CrashForgets(g, s); }
    else if l.Freeze? { FreezeFreezes(g, s); }
    else if s.freezing { FreezingIsKept(g, s, l); }
  }

  lemma CrashForgets(g: Plan, s: State)
    ensures Enabled(g, s, Crash) && !Apply(g, s, Crash).freezing && Apply(g, s, Crash).status == s.status
  {
  }

  lemma FreezeFreezes(g: Plan, s: State)
    requires Enabled(g, s, Freeze) && SoundEnding(s)
    ensures IsOver(s) ==> Apply(g, s, Freeze).report.Some?
    ensures Apply(g, s, Freeze).status == s.status
  {
  }

  /** Nothing but a crash or the freeze itself ends the wait for it. */
  lemma FreezingIsKept(g: Plan, s: State, l: Label)
    requires Sound(g, s) && Enabled(g, s, l) && s.freezing && !l.Restart? && !l.Crash? && !l.Freeze?
    ensures Apply(g, s, l).freezing
  {
    hide Sound;
    if IsBranchMove(l) {
      hide Apply, Enabled;
      BranchMoveTouches(g, s, l);
    } else if IsPlaceMove(l) {
      hide Apply, Enabled;
      PlaceMoveKeepsFreezing(g, s, l);
    } else if IsAroundMove(l) {
      hide CancelBranches, IsUncertain, ApplyControl;
      if l.Control? { ControlKeepsFreezing(s, l.action); }
    } else {
      hide CancelBranches, Fits, IsScheduled, IsUnresolved, IsAdmission, StartAttempt, PersistResult, CommitRoute, AfterPool, Polled;
      if l.Start? { WritesKeepFreezing(s, l.node, BOUNDARY); }
      else if l.Persist? { WritesKeepFreezing(s, s.pc.node, s.pc.result); }
      else if l.Route? {
        ChosenRouteIsAllowed(g, s, s.pc.node);
        RouteKeepsFreezing(s, ChooseRoute(g, s, s.pc.node));
      } else if ClosesPool(l) { PoolKeepsFreezing(s, s.pc.node, s.pc.first, IsStopRead(s, l)); }
    }
  }

  lemma PlaceMoveKeepsFreezing(g: Plan, s: State, l: Label)
    requires Enabled(g, s, l) && IsPlaceMove(l) && s.freezing
    ensures Apply(g, s, l).freezing
  {
    hide Enabled, Apply;
    hide CancelBranches, Fits, IsScheduled, ChooseLateRoute, JoinResult, IsRefused, HonorBarrier, MainAttempt;
    PlaceApplies(g, s, l);
    HonorKeepsFreezing(s);
  }

  lemma HonorKeepsFreezing(s: State)
    ensures s.freezing ==> HonorBarrier(s).freezing
  {
  }

  lemma ControlKeepsFreezing(s: State, a: Action)
    ensures ApplyControl(s, a).freezing == s.freezing
  {
  }

  lemma WritesKeepFreezing(s: State, n: Id, r: Result)
    requires n in s.top.rows
    ensures StartAttempt(s, n).freezing == s.freezing && PersistResult(s, n, r).freezing == s.freezing
  {
    hide Begin, Settle, Checkpoint;
  }

  lemma RouteKeepsFreezing(s: State, c: RouteChoice)
    requires c.Moves? ==> c.edge.from in s.top.rows && c.edge.to in s.top.rows
    ensures s.freezing ==> CommitRoute(s, c).freezing
  {
    hide Advance, HonorBarrier;
    HonorKeepsFreezing(s);
  }

  lemma PoolKeepsFreezing(s: State, n: Id, first: bool, stopped: bool)
    requires n in s.top.rows
    ensures AfterPool(s, n, first, stopped).freezing == s.freezing
  {
    hide Aggregate, CancelBranches, HasRaised;
  }

  /** A terminal run gets its report in some continuation if and only if it has it or the freeze is still to come. */
  lemma ReportIsFrozenExactlyWhen(g: Plan, s: State)
    requires Sound(g, s) && SoundEnding(s) && IsOver(s)
    ensures (exists ls :: IsRun(g, s, ls) && WithoutRestart(ls) && Exec(g, s, ls).report.Some?) <==> s.report.Some? || s.freezing
  {
    hide Sound, SoundEnding;
    if s.report.Some? || s.freezing {
      var ls := if s.report.Some? then [] else [Freeze];
      if s.report.None? {
        assert IsRun(g, Apply(g, s, Freeze), []);
        assert [Freeze][1..] == [];
        FrozenHasReport(s);
      }
      assert IsRun(g, s, ls) && WithoutRestart(ls) && Exec(g, s, ls).report.Some?;
    } else {
      forall ls | IsRun(g, s, ls) && WithoutRestart(ls) ensures Exec(g, s, ls).report.None? { LostReportStaysLost(g, s, ls); }
    }
  }

  lemma FrozenHasReport(s: State)
    requires SoundEnding(s) && IsOver(s)
    ensures s.ending.Some?
  {
  }

  /** A new attempt, of the run or of a branch, is only recorded while the run is going. */
  lemma AttemptsStartOnlyWhileGoing(g: Plan, s: State, l: Label)
    requires Sound(g, s) && Enabled(g, s, l)
    ensures var h := Apply(g, s, l).history;
      s.history <= h && (forall e | e in h[|s.history|..] && e.Began? :: s.status == Running && s.barrier == NoBarrier)
  {
    hide Sound, SameTally, SameTallies, Begin, Advance, FinishRun, IsScheduled;
    hide BeginBranch, ChooseRoute, ChooseBranchRoute, ValidRoute, EdgesHaveRows, RestartFrom;
    if !IsCounting(l) {
      hide Enabled, Apply;
      StepIsQuiet(g, s, l);
    } else if l.Restart? {
      RestartKeepsHistory(s, l.budget);
    } else if l.Route? {
      RouteChoices(g, s);
    } else if l.RouteBranch? {
      BranchRouteChoices(g, s, l.slot);
    } else if l.StartBranch? {
      BranchStartChoices(s, l.slot, l.limit);
    }
  }

  /**
   A serial start raises if and only if the run is not going, and otherwise begins or is refused;
   raising it leaves `run` and touches nothing.
   */
  lemma SerialStartRaisesExactlyWhen(g: Plan, s: State, n: Id)
    requires IsPicked(s, n) && s.top.rows[n].state.Ready?
    ensures Enabled(g, s, Fail(n)) <==> !IsGoing(s)
    ensures Enabled(g, s, Start(n)) <==> IsGoing(s) && !IsRefused(s, s.top.rows[n])
    ensures Enabled(g, s, Fail(n)) ==> Apply(g, s, Fail(n)) == s.(pc := Idle)
  {
    hide IsScheduled, IsRefused;
  }

  lemma RestartKeepsHistory(s: State, budget: Budget)
    ensures RestartFrom(s, budget).history == s.history
  {
  }
}
