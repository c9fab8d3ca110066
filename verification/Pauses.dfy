/**
 Pause transparency. On a graph without containers, with fixed answers and no clock or cost
 limits, any number of pauses, resumptions and returns for lack of steps leaves the final node
 rows, traversal counts, counters and ending equal to those of the run nobody paused. With
 containers this fails: a pause that meets a branch about to start makes the pool raise.
 */
module Pauses {
  import opened Options
  import opened Graphs
  import opened Results
  import opened Walks
  import opened Reports
  import opened Machine
  import opened Tokens
  import opened Effects

  /** The answer to one attempt of a node, and to each later poll of its handle. */
  type Oracle = (Id, nat, nat) -> Result

  ghost predicate NamesHandles(o: Oracle) { forall n, attempt, poll :: o(n, attempt, poll) != Awaiting("") }

  ghost predicate IsSerial(g: Plan) { ValidPlan(g) && forall n | n in g.nodes :: !IsContainer(n.kind) && !n.kind.Join? }

  // ---- the run nobody interrupts ----

  /** What a run has durably achieved. */
  datatype Core = Core(top: Walk, calls: nat, repairs: nat, ending: Option<Ending>)

  function CoreOf(s: State): Core { Core(s.top, s.calls, s.repairs, s.ending) }

  function AnswerTo(w: Walk, o: Oracle): Result
    requires AtRow(w)
  {
    var row := Current(w);
    o(w.at.value, row.attempts, if row.trigger.Checkpointed? then row.polls + 1 else row.polls)
  }

  function Asked(w: Walk): Walk
    requires AtRow(w)
  {
    if Current(w).trigger.Checkpointed? then Polled(w, w.at.value) else w
  }

  function Refuses(c: Core, budget: Budget, r: Row): bool {
    (IsCounted(r.node.kind) && c.calls >= budget.maxExecutorCalls) || !WithinNodeCalls(r)
  }

  function NextRoute(g: Plan, c: Core, budget: Budget): Core
    requires AtRow(c.top) && Current(c.top).result.Some? && !Current(c.top).result.value.Awaiting?
    requires forall e | e in g.edges :: e.from in c.top.rows && e.to in c.top.rows
  {
    var row, r := Current(c.top), Current(c.top).result.value;
    match Select(g.edges, c.top.counts, c.top.at.value, r, row.attempts)
    case None => c.(ending := Some(EndingFor(r)))
    case Some(e) =>
      var repair := IsRepair(e, r);
      if repair && (c.repairs >= budget.maxRepairIterations || !WithinNodeRepairs(row)) then c.(ending := Some(EXHAUSTED))
      else c.(top := Advance(c.top, e, repair), repairs := c.repairs + if repair then 1 else 0)
  }

  /** One step of the uninterrupted run. */
  function Next(g: Plan, c: Core, budget: Budget, o: Oracle): Core {
    if c.ending.Some? || !AtRow(c.top) then c
    else
      var n, row := c.top.at.value, Current(c.top);
      match row.state
      case Ready =>
        if Refuses(c, budget, row) then c.(ending := Some(EXHAUSTED))
        else c.(top := Begin(c.top, n, IsExternal(row.node.kind)), calls := c.calls + if IsCounted(row.node.kind) then 1 else 0)
      case InFlight =>
        var r := AnswerTo(c.top, o);
        if r.Awaiting? && row.trigger.Untriggered? then c.(ending := Some(UNCERTAIN))
        else if r.Awaiting? then c.(top := Checkpoint(Asked(c.top), n, r.externalHandle))
        else c.(top := Settle(Asked(c.top), n, r))
      case Settled(_) =>
        if row.result.None? || row.result.value.Awaiting?
           || !(forall e | e in g.edges :: e.from in c.top.rows && e.to in c.top.rows)
        then c
        else NextRoute(g, c, budget)
      case Waiting => c
  }

  function Uninterrupted(g: Plan, c: Core, budget: Budget, o: Oracle, k: nat): Core {
    if k == 0 then c else Next(g, Uninterrupted(g, c, budget, o, k - 1), budget, o)
  }

  lemma {:induction false} EndedStays(g: Plan, c: Core, budget: Budget, o: Oracle, k: nat, m: nat)
    requires Uninterrupted(g, c, budget, o, k).ending.Some? && k <= m
    ensures Uninterrupted(g, c, budget, o, m) == Uninterrupted(g, c, budget, o, k)
    decreases m
  {
    if k < m { EndedStays(g, c, budget, o, k, m - 1); }
  }

  lemma EndIsUnique(g: Plan, c: Core, budget: Budget, o: Oracle, k: nat, m: nat)
    requires Uninterrupted(g, c, budget, o, k).ending.Some? && Uninterrupted(g, c, budget, o, m).ending.Some?
    ensures Uninterrupted(g, c, budget, o, k) == Uninterrupted(g, c, budget, o, m)
  {
    if k <= m { EndedStays(g, c, budget, o, k, m); } else { EndedStays(g, c, budget, o, m, k); }
  }

  // ---- the machine follows it ----

  predicate IsInFlight(w: Walk) { AtRow(w) && Current(w).state.InFlight? }

  predicate HasHandle(w: Walk) { AtRow(w) && Current(w).trigger.Checkpointed? }

  predicate IsDoomed(w: Walk, o: Oracle) {
    IsInFlight(w) && Current(w).trigger.Untriggered? && AnswerTo(w, o).Awaiting?
  }

  ghost predicate FollowsPc(top: Walk, pc: Pc, w: Walk, o: Oracle) {
    match pc
    case Calling(n) => top == w && w.at == Some(n) && IsInFlight(w) && !HasHandle(w)
    case Holding(n, r) => w.at == Some(n) && IsInFlight(w) && r == AnswerTo(w, o) && top == Asked(w)
    case Settling(_) => top == w && AtRow(w) && Current(w).state.Settled?
    case Routing(_) => top == w && AtRow(w) && Current(w).state.Settled?
    case Pooling(_, _) => false
    case Dead => false
    case _ => top == w && (IsInFlight(w) && !HasHandle(w) ==> IsDoomed(w, o))
  }

  ghost predicate Follows(s: State, c: Core, o: Oracle) {
    && s.calls == c.calls && s.repairs == c.repairs && s.ending == c.ending
    && FollowsPc(s.top, s.pc, c.top, o)
    && (IsOver(s) <==> s.ending.Some?)
    && (IsOver(s) ==> s.pc == Top || s.pc == Idle)
    && s.barrier != InterruptBarrier && s.barrier != CancelBarrier && s.status != Quiescing
  }

  /** Loop moves without limits, pauses, resumptions, rejected controls, and entering and leaving the loop. */
  predicate IsPatient(l: Label) {
    || (!IsAroundMove(l) && !IsBranchMove(l) && !l.HitLimit? && !l.HitNodeLimit? && (l.Refuse? ==> !l.limit))
    || (l.Control? && !l.action.Interrupt?) || l.Freeze?
  }

  /** The label answers as the oracle does. */
  ghost predicate Obeys(s: State, l: Label, o: Oracle) {
    (l.Answer? || l.Poll?) && AtRow(s.top) ==> l.result == AnswerTo(s.top, o)
  }

  ghost predicate Steps(g: Plan, s: State, s': State, c: Core, o: Oracle) {
    && s'.budget == s.budget
    && (Follows(s', c, o) || Follows(s', Next(g, c, s.budget, o), o))
  }

  // ---- label by label ----

  lemma SerialRow(g: Plan, s: State, n: Id)
    requires Sound(g, s) && IsSerial(g) && n in s.top.rows
    ensures var r := s.top.rows[n];
      && !IsContainer(r.node.kind) && !r.node.kind.Join?
      && (!IsExternal(r.node.kind) ==> r.trigger.Untriggered?)
  {
    hide OneToken, SoundBranches, SoundThreads, SoundBarrier, SoundPc;
  }

  lemma StartFollows(g: Plan, s: State, n: Id, c: Core, o: Oracle)
    requires OneToken(s.top) && s.top.at == Some(n) && Current(s.top).state.Ready? && s.pc == Top && !IsOver(s)
    requires !IsExternal(Current(s.top).node.kind) ==> Current(s.top).trigger.Untriggered?
    requires Follows(s, c, o) && !IsRefused(s, Current(s.top))
    ensures Steps(g, s, StartAttempt(s, n), c, o)
  {
    hide AnswerTo;
  }

  lemma RefuseFollows(g: Plan, s: State, c: Core, o: Oracle)
    requires OneToken(s.top) && Current(s.top).state.Ready? && s.pc == Top
    requires Follows(s, c, o) && IsRefused(s, Current(s.top))
    ensures Steps(g, s, FinishRun(s, EXHAUSTED).(pc := Idle), c, o)
  {
    hide AnswerTo;
  }

  lemma GiveUpFollows(g: Plan, s: State, c: Core, o: Oracle)
    requires OneToken(s.top) && Current(s.top).state.InFlight? && !HasHandle(s.top) && s.pc == Top && !IsOver(s)
    requires Follows(s, c, o)
    ensures Steps(g, s, FinishRun(s, UNCERTAIN), c, o)
  {
    hide AnswerTo;
  }

  lemma PersistFollows(g: Plan, s: State, c: Core, o: Oracle)
    requires s.pc.Holding? && s.pc.node in s.top.rows && Follows(s, c, o)
    ensures Steps(g, s, PersistResult(s, s.pc.node, s.pc.result), c, o)
  {
    hide AnswerTo;
    var r, n := s.pc.result, s.pc.node;
    if r.Awaiting? && Current(c.top).trigger.Untriggered? { CheckpointWithoutRowIsNothing(s.top, n, r.externalHandle); }
  }

  lemma CheckpointWithoutRowIsNothing(w: Walk, n: Id, h: string)
    requires n in w.rows && w.rows[n].trigger.Untriggered?
    ensures Checkpoint(w, n, h) == w
  {
    assert Checkpoint(w, n, h).rows == w.rows;
  }

  /** The route the run takes is the one the uninterrupted run takes. */
  lemma RouteChoiceIsNext(g: Plan, s: State, n: Id, c: Core)
    requires ValidRoute(g, s, n) && c == CoreOf(s) && s.top.at == Some(n) && s.barrier == NoBarrier
    ensures match ChooseRoute(g, s, n)
            case Held => false
            case Ends(e) => NextRoute(g, c, s.budget) == c.(ending := Some(e))
            case Moves(e, repair) =>
              e.from in s.top.rows && e.to in s.top.rows && e.from == n
              && NextRoute(g, c, s.budget) == c.(top := Advance(c.top, e, repair), repairs := c.repairs + if repair then 1 else 0)
  {
    hide Advance, EndingFor, IsRepair;
  }

  lemma RouteFollows(g: Plan, s: State, c: Core, o: Oracle)
    requires ValidPlan(g) && SoundWalk(g, s.top) && s.pc.Routing? && IsDoneAt(s.top, s.pc.node) && SoundBarrier(s.status, s.barrier)
    requires Follows(s, c, o)
    ensures ValidRoute(g, s, s.pc.node) && Steps(g, s, CommitRoute(s, ChooseRoute(g, s, s.pc.node)), c, o)
  {
    hide ChooseRoute, ValidRoute, Advance, AnswerTo, NextRoute, SoundWalk, ValidPlan;
    DoneNodeCanRoute(g, s, s.pc.node);
    if s.barrier == NoBarrier {
      assert c == CoreOf(s);
      RouteChoiceIsNext(g, s, s.pc.node, c);
      NextOfSettled(g, s, c, s.budget, o);
      if ChooseRoute(g, s, s.pc.node).Moves? { AdvancedIsReady(s.top, ChooseRoute(g, s, s.pc.node).edge, ChooseRoute(g, s, s.pc.node).repair); }
    } else {
      HeldRoute(g, s, s.pc.node);
    }
  }

  /** A pause that comes in the middle of a route changes nothing of where the run is going. */
  lemma LateRouteFollows(g: Plan, s: State, exhausted: bool, c: Core, o: Oracle)
    requires Sound(g, s) && Enabled(g, s, LateRoute(exhausted)) && Follows(s, c, o)
    ensures Steps(g, s, Apply(g, s, LateRoute(exhausted)), c, o)
  {
    hide Sound, ChooseRoute, ValidRoute, Advance, AnswerTo, NextRoute, OneToken, Select;
    TokenRow(g, s);
    var free := s.(barrier := NoBarrier);
    SameRoute(g, s, s.pc.node);
    var choice := ChooseLateRoute(g, s, s.pc.node, exhausted);
    if s.ending.None? && choice.Ends? {
      RouteChoiceIsNext(g, free, s.pc.node, c);
      NextOfSettled(g, free, c, s.budget, o);
    }
  }

  lemma AdvancedIsReady(w: Walk, e: Edge, repair: bool)
    requires e.from in w.rows && e.to in w.rows
    ensures var w' := Advance(w, e, repair); AtRow(w') && Current(w').state.Ready?
  {
  }

  lemma HeldRoute(g: Plan, s: State, n: Id)
    requires ValidRoute(g, s, n) && s.barrier != NoBarrier
    ensures ChooseRoute(g, s, n) == Held
  {
  }

  lemma NextOfSettled(g: Plan, s: State, c: Core, budget: Budget, o: Oracle)
    requires s.pc.Routing? && ValidRoute(g, s, s.pc.node) && s.top.at == Some(s.pc.node) && c == CoreOf(s) && s.ending.None?
    requires Current(s.top).state.Settled?
    ensures Next(g, c, budget, o) == NextRoute(g, c, budget)
  {
    hide NextRoute;
  }

  lemma TopMoveFollows(g: Plan, s: State, l: Label, c: Core, o: Oracle)
    requires Sound(g, s) && IsSerial(g) && Enabled(g, s, l) && IsPatient(l) && Obeys(s, l, o) && NamesHandles(o)
    requires Follows(s, c, o) && (l.Start? || l.Refuse? || l.GiveUp? || l.Poll? || l.Resume?)
    ensures Steps(g, s, Apply(g, s, l), c, o)
  {
    hide Sound, IsScheduled, IsUnresolved, IsRefused, Fits, FinishRun, StartAttempt, AnswerTo, Next, NamesHandles;
    TokenRow(g, s);
    SchedulerFindsTheToken(s.top, l.node);
    SerialRow(g, s, l.node);
    if l.Start? { StartFollows(g, s, l.node, c, o); }
    else if l.Refuse? { RefuseFollows(g, s, c, o); }
    else if l.GiveUp? { GiveUpFollows(g, s, c, o); }
  }

  /** A move that leaves the work of the run as it is. */
  predicate IsQuietPlace(l: Label) { l.Enter? || l.Leave? || l.SeePause? || l.Park? || l.Skip? || l.Fail? || l.Freeze? }

  lemma PlaceMoveFollows(g: Plan, s: State, l: Label, c: Core, o: Oracle)
    requires Sound(g, s) && Enabled(g, s, l) && Follows(s, c, o) && IsQuietPlace(l)
    requires l.Skip? ==> !s.pc.Calling?
    ensures Steps(g, s, Apply(g, s, l), c, o)
  {
    hide Sound, AnswerTo, Next, IsScheduled;
    TokenRow(g, s);
  }

  lemma ControlFollows(g: Plan, s: State, a: Action, c: Core, o: Oracle)
    requires Follows(s, c, o) && !a.Interrupt?
    ensures Steps(g, s, ApplyControl(s, a), c, o)
  {
    hide FollowsPc, Next;
  }

  lemma HonorFollows(g: Plan, s: State, c: Core, o: Oracle)
    requires Enabled(g, s, Honor) && Follows(s, c, o)
    ensures Steps(g, s, Apply(g, s, Honor), c, o)
  {
    hide AnswerTo, Next;
  }

  lemma AnswerFollows(g: Plan, s: State, r: Result, c: Core, o: Oracle)
    requires Enabled(g, s, Answer(r)) && Follows(s, c, o) && Obeys(s, Answer(r), o)
    ensures Steps(g, s, Apply(g, s, Answer(r)), c, o)
  {
    hide AnswerTo, Next, Fits, MainAttempt;
  }

  lemma OtherMoveFollows(g: Plan, s: State, l: Label, c: Core, o: Oracle)
    requires Sound(g, s) && Enabled(g, s, l) && IsPatient(l) && Obeys(s, l, o) && Follows(s, c, o)
    requires IsQuietPlace(l) || l.Control? || l.Honor? || l.Answer?
    requires l.Skip? ==> !s.pc.Calling?
    ensures Steps(g, s, Apply(g, s, l), c, o)
  {
    hide Sound, Enabled, Follows, Steps, Obeys, ApplyControl;
    if l.Control? { ControlFollows(g, s, l.action, c, o); }
    else {
      hide Apply;
      if l.Honor? { HonorFollows(g, s, c, o); }
      else if l.Answer? { AnswerFollows(g, s, l.result, c, o); }
      else { PlaceMoveFollows(g, s, l, c, o); }
    }
  }

  lemma NoOtherMoves(g: Plan, s: State, l: Label, c: Core, o: Oracle)
    requires Sound(g, s) && IsSerial(g) && Enabled(g, s, l) && IsPatient(l) && Follows(s, c, o) && NamesHandles(o)
    ensures !l.AnswerJoin? && !l.OpenPool? && !ClosesPool(l) && !l.Drain? && !l.Quit? && !l.Restart? && !l.Abort?
    ensures l.Skip? ==> !s.pc.Calling?
  {
    hide Sound, Fits, AnswerTo, ValidRoute, IsAdmission, IsScheduled, IsUnresolved, NamesHandles;
    if s.pc.Calling? && s.pc.node in s.top.rows { SerialRow(g, s, s.pc.node); }
    if l.OpenPool? { SerialRow(g, s, l.node); }
    if AtRow(c.top) { AnswersNameHandles(c.top, o); }
  }

  lemma AnswersNameHandles(w: Walk, o: Oracle)
    requires NamesHandles(o) && AtRow(w)
    ensures AnswerTo(w, o) != Awaiting("")
  {
  }

  lemma StepFollows(g: Plan, s: State, l: Label, c: Core, o: Oracle)
    requires Sound(g, s) && IsSerial(g) && Enabled(g, s, l) && IsPatient(l) && Obeys(s, l, o) && NamesHandles(o)
    requires Follows(s, c, o)
    ensures Steps(g, s, Apply(g, s, l), c, o)
  {
    hide Sound, Enabled, Apply, Obeys, NamesHandles, Follows, Steps, Next;
    NoOtherMoves(g, s, l, c, o);
    if l.Start? || l.Refuse? || l.GiveUp? || l.Poll? || l.Resume? { TopMoveFollows(g, s, l, c, o); }
    else if l.Persist? { PersistLabelFollows(g, s, c, o); }
    else if l.Route? { RouteLabelFollows(g, s, c, o); }
    else if l.LateRoute? { LateRouteFollows(g, s, l.exhausted, c, o); }
    else { OtherMoveFollows(g, s, l, c, o); }
  }

  lemma PersistLabelFollows(g: Plan, s: State, c: Core, o: Oracle)
    requires Enabled(g, s, Persist) && Follows(s, c, o)
    ensures Steps(g, s, Apply(g, s, Persist), c, o)
  {
    hide Steps, Follows, PersistResult;
    PersistFollows(g, s, c, o);
  }

  lemma RouteLabelFollows(g: Plan, s: State, c: Core, o: Oracle)
    requires Sound(g, s) && Enabled(g, s, Route) && Follows(s, c, o)
    ensures Steps(g, s, Apply(g, s, Route), c, o)
  {
    hide Steps, Follows, CommitRoute, ChooseRoute, ValidRoute, SoundBranches, SoundThreads, ValidPlan, SoundWalk, SoundBarrier;
    RouteFollows(g, s, c, o);
  }

  // ---- whole runs ----

  ghost predicate AllObey(g: Plan, s: State, ls: seq<Label>, o: Oracle)
    requires IsRun(g, s, ls)
    decreases |ls|
  {
    ls == [] || (Obeys(s, ls[0], o) && AllObey(g, Apply(g, s, ls[0]), ls[1..], o))
  }

  ghost predicate AllPatient(ls: seq<Label>) { forall l | l in ls :: IsPatient(l) }

  lemma {:induction false} RunFollows(g: Plan, s: State, ls: seq<Label>, start: Core, o: Oracle, k: nat) returns (k': nat)
    requires Sound(g, s) && IsSerial(g) && IsRun(g, s, ls) && AllPatient(ls) && AllObey(g, s, ls, o) && NamesHandles(o)
    requires Follows(s, Uninterrupted(g, start, s.budget, o, k), o)
    ensures Follows(Exec(g, s, ls), Uninterrupted(g, start, s.budget, o, k'), o)
    decreases |ls|
  {
    hide Sound, IsSerial, Enabled, Apply, Obeys, NamesHandles, Follows, Next, IsPatient;
    if ls == [] { k' := k; }
    else {
      var s1, c := Apply(g, s, ls[0]), Uninterrupted(g, start, s.budget, o, k);
      StepFollows(g, s, ls[0], c, o);
      StepKeepsSound(g, s, ls[0]);
      NextIsUninterrupted(g, start, s.budget, o, k);
      if Follows(s1, c, o) { k' := RunFollows(g, s1, ls[1..], start, o, k); }
      else { k' := RunFollows(g, s1, ls[1..], start, o, k + 1); }
    }
  }

  lemma NextIsUninterrupted(g: Plan, c: Core, budget: Budget, o: Oracle, k: nat)
    ensures Uninterrupted(g, c, budget, o, k + 1) == Next(g, Uninterrupted(g, c, budget, o, k), budget, o)
  {
  }

  /** A run that can be continued: between attempts, or waiting on a handle; going, or paused. */
  ghost predicate IsContinuable(s: State) {
    && (s.pc == Idle || s.pc == Top) && !IsOver(s) && s.ending.None?
    && (s.barrier == NoBarrier || s.barrier == PauseBarrier) && s.status != Quiescing
    && (IsInFlight(s.top) ==> HasHandle(s.top))
  }

  /** Two runs of the same state and answers, however often either is paused, end alike. */
  lemma PausesAreTransparent(g: Plan, s: State, paused: seq<Label>, plain: seq<Label>, o: Oracle)
    requires Sound(g, s) && IsSerial(g) && IsContinuable(s) && NamesHandles(o)
    requires IsRun(g, s, paused) && AllPatient(paused) && AllObey(g, s, paused, o)
    requires IsRun(g, s, plain) && AllPatient(plain) && AllObey(g, s, plain, o)
    requires IsOver(Exec(g, s, paused)) && IsOver(Exec(g, s, plain))
    ensures CoreOf(Exec(g, s, paused)) == CoreOf(Exec(g, s, plain))
  {
    hide Sound, IsSerial, Enabled, Apply, Exec, IsRun, AllObey, NamesHandles, Uninterrupted, AnswerTo;
    var start := CoreOf(s);
    StartFollowsItself(g, s, o);
    var k := RunFollows(g, s, paused, start, o, 0);
    var m := RunFollows(g, s, plain, start, o, 0);
    EndIsUnique(g, start, s.budget, o, k, m);
  }

  lemma StartFollowsItself(g: Plan, s: State, o: Oracle)
    requires IsContinuable(s)
    ensures Follows(s, Uninterrupted(g, CoreOf(s), s.budget, o, 0), o)
  {
    hide AnswerTo;
  }

  // ---- where a pause is not transparent ----

  /** A branch thread about to start raises exactly when a barrier came before it. */
  lemma StartRaisesExactlyWhen(g: Plan, s: State, slot: Slot, limit: bool)
    requires Sound(g, s) && slot in s.threads && s.threads[slot].Starting?
    ensures HasBranchNode(s, slot)
    ensures ChooseStart(s, slot, limit) == Turned(Out(true)) <==> !IsGoing(s)
  {
    hide Sound, OneToken, SoundBranch;
    ThreadHasNode(g, s, slot);
  }

  /** What makes a thread raise: a start while the run is not going, a pending answer without a handle, a poll that raises. */
  ghost predicate Raises(s: State, l: Label) {
    || (l.StartBranch? && !IsGoing(s))
    || (l.PersistBranch? && l.slot in s.threads && s.threads[l.slot] == Answered(Awaiting("")))
    || l.FailBranch?
  }

  lemma StartThreadRaises(g: Plan, s: State, slot: Slot, limit: bool)
    requires Sound(g, s) && Enabled(g, s, StartBranch(slot, limit))
    ensures slot in Apply(g, s, StartBranch(slot, limit)).threads
    ensures Apply(g, s, StartBranch(slot, limit)).threads[slot] == Out(true) <==> !IsGoing(s)
  {
    hide Sound, SoundBranch, OneToken, ChooseStart, BeginBranch;
    StartRaisesExactlyWhen(g, s, slot, limit);
  }

  lemma PersistThreadRaises(s: State, slot: Slot, r: Result)
    requires HasBranchNode(s, slot)
    ensures slot in PersistBranchResult(s, slot, r).threads
    ensures PersistBranchResult(s, slot, r).threads[slot] == Out(true) <==> r == Awaiting("")
  {
    hide Checkpoint, Settle, BranchAttempt;
  }

  lemma RouteThreadDoesNotRaise(s: State, slot: Slot, c: BranchChoice)
    requires HasThread(s, slot)
    requires c.Walks? ==> c.edge.from in s.branches[slot].walk.rows && c.edge.to in s.branches[slot].walk.rows
    ensures var ts := CommitBranchRoute(s, slot, c).threads; slot in ts && ts[slot] != Out(true)
  {
    hide Advance, Close;
  }

  lemma ThreadRaisesExactlyWhen(g: Plan, s: State, l: Label)
    requires Sound(g, s) && Enabled(g, s, l) && IsBranchMove(l)
    ensures l.slot in s.threads && s.threads[l.slot] != Out(true) && l.slot in Apply(g, s, l).threads
    ensures Apply(g, s, l).threads[l.slot] == Out(true) <==> Raises(s, l)
  {
    hide Enabled, Apply;
    hide Sound, Fits, CommitStart, PersistBranchResult, CommitBranchRoute, ChooseStart, ChooseBranchRoute, Close, BlockedResult;
    hide Polled, BranchAttempt;
    BranchApplies(g, s, l);
    if l.StartBranch? { StartThreadRaises(g, s, l.slot, l.limit); }
    else if l.PersistBranch? { PersistThreadRaises(s, l.slot, s.threads[l.slot].result); }
    else if l.RouteBranch? { RouteThreadDoesNotRaise(s, l.slot, ChooseBranchRoute(s, l.slot, s.threads[l.slot].result)); }
  }

  ghost predicate StaysInPool(ls: seq<Label>) { forall l | l in ls :: !ClosesPool(l) && !l.Crash? && !l.Restart? }

  /** Some transaction along the way raises. */
  ghost predicate RaisesAlong(g: Plan, s: State, ls: seq<Label>)
    requires IsRun(g, s, ls)
    decreases |ls|
  {
    ls != [] && (Raises(s, ls[0]) || RaisesAlong(g, Apply(g, s, ls[0]), ls[1..]))
  }

  lemma StepRaises(g: Plan, s: State, l: Label)
    requires Sound(g, s) && Enabled(g, s, l) && s.pc.Pooling? && !ClosesPool(l) && !l.Crash? && !l.Restart?
    ensures HasRaised(Apply(g, s, l).threads) <==> HasRaised(s.threads) || Raises(s, l)
  {
    hide Sound, OnlySlot, Apply, Enabled;
    PoolStays(g, s, l);
    if IsBranchMove(l) {
      BranchMoveTouches(g, s, l);
      ThreadRaisesExactlyWhen(g, s, l);
      RaisedElsewhere(s, Apply(g, s, l), l.slot);
    }
  }

  lemma RaisedElsewhere(s: State, s': State, slot: Slot)
    requires OnlySlot(s, s', slot) && slot in s.threads && slot in s'.threads && s.threads[slot] != Out(true)
    ensures HasRaised(s'.threads) <==> HasRaised(s.threads) || s'.threads[slot] == Out(true)
  {
    if other :| other in s.threads && s.threads[other] == Out(true) { assert s'.threads[other] == Out(true); }
  }

  lemma {:induction false} RunRaises(g: Plan, s: State, ls: seq<Label>)
    requires Sound(g, s) && s.pc.Pooling? && IsRun(g, s, ls) && StaysInPool(ls)
    ensures Exec(g, s, ls).pc == s.pc && Exec(g, s, ls).top == s.top
    ensures HasRaised(Exec(g, s, ls).threads) <==> HasRaised(s.threads) || RaisesAlong(g, s, ls)
    decreases |ls|
  {
    hide Sound, Enabled, Apply, HasRaised, Raises;
    if ls != [] {
      StepRaises(g, s, ls[0]);
      PoolStays(g, s, ls[0]);
      StepKeepsSound(g, s, ls[0]);
      RunRaises(g, Apply(g, s, ls[0]), ls[1..]);
    }
  }

  /** What becomes of an exception of the pool: a boundary error of the first step, or an exception of `run`. */
  function Surfaced(n: Id, first: bool): Pc { if first then Holding(n, BOUNDARY) else Idle }

  lemma ParallelNeverRaises(s: State, n: Id, first: bool, stopped: bool)
    requires n in s.top.rows && s.top.rows[n].node.kind.Parallel?
    ensures AfterPool(s, n, first, stopped).pc == Surfaced(n, first) <==> HasRaised(s.threads)
  {
    hide Combine, ResultsOf, HasRaised, CancelBranches;
  }

  /**
   A step of a parallel node fails, as a boundary error on its first step and as an exception that
   leaves `run` on a later one, if and only if some branch start of the pool comes while the run
   is not going, some answer is pending without a handle, or some poll of a handle raises.
   */
  lemma PoolFailsExactlyWhen(g: Plan, s: State, ls: seq<Label>, closing: Label, n: Id, first: bool)
    requires Sound(g, s) && s.pc == Pooling(n, first) && !HasRaised(s.threads)
    requires n in s.top.rows && s.top.rows[n].node.kind.Parallel?
    requires IsRun(g, s, ls) && StaysInPool(ls) && ClosesPool(closing) && Enabled(g, Exec(g, s, ls), closing)
    ensures Apply(g, Exec(g, s, ls), closing).pc == Surfaced(n, first) <==> RaisesAlong(g, s, ls)
  {
    hide Sound, IsRun, Exec, RaisesAlong, HasRaised, Surfaced, AfterPool;
    RunRaises(g, s, ls);
    ParallelNeverRaises(Exec(g, s, ls), n, first, IsStopRead(Exec(g, s, ls), closing));
  }

  /**
   So a pause between a thread's look and its start fails the container's step, where the run
   nobody paused would have begun the attempt.
   */
  lemma PauseCanFailAContainer(g: Plan, s: State, slot: Slot)
    requires Sound(g, s) && IsGoing(s) && s.pc.Pooling?
    requires slot in s.threads && s.threads[slot].Starting?
    requires forall other | other in s.threads && other != slot :: s.threads[other].Out?
    ensures var ls := [Control(Pause), StartBranch(slot, false)];
      && IsRun(g, s, ls) && Enabled(g, Exec(g, s, ls), ClosePool)
      && Apply(g, Exec(g, s, ls), ClosePool).pc == Surfaced(s.pc.node, s.pc.first)
  {
    hide Sound, OneToken, SoundBranch, IsRun, Exec, SoundThread, Aggregate, CancelBranches;
    ThreadHasNode(g, s, slot);
    PoolNodeIsARow(g, s);
    TwoSteps(g, s, Control(Pause), StartBranch(slot, false));
    var s2 := Exec(g, s, [Control(Pause), StartBranch(slot, false)]);
    assert s2.threads[slot] == Out(true);
  }

  lemma PoolNodeIsARow(g: Plan, s: State)
    requires Sound(g, s) && s.pc.Pooling?
    ensures s.pc.node in s.top.rows
  {
    hide SoundBranches, SoundThreads, ValidPlan, SoundBarrier, SoundWalk;
  }
}
