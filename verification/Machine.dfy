/**
 The graph runtime of one run lineage as a labelled state machine
 (runtime/engine.py and runtime/parallel.py).

 A label is one committed transaction, one executor or verifier answer, one read that a later
 transaction relies on, one control step, or a crash. Everything the code does not decide is carried by the label: answers, the wall
 clock and cost limits, which branch thread moves next, controls and crashes. A run is
 therefore a sequence of enabled labels, and a statement about every label sequence is a
 statement about every answer, schedule, control and crash.

 Tables are maps. `pc`, `threads`, `sweeping` and `freezing` are what a process forgets when
 it dies; `history` and `invoked` only record what happened.
 */
module Machine {
  import opened Options
  import opened Graphs
  import opened Results
  import opened Walks
  import opened Reports
  import Ordering

  datatype Barrier = NoBarrier | PauseBarrier | InterruptBarrier | CancelBarrier

  datatype Budget = Budget(maxExecutorCalls: nat, maxRepairIterations: nat)

  datatype Slot = Slot(container: Id, branch: Id)

  datatype BranchStatus = Pending | Active | Closed(outcome: Outcome)

  /** A parallel_branches row with its nodes; `plan` and `order` are its subgraph_json and branch_order. */
  datatype Branch = Branch(plan: Plan, order: nat, status: BranchStatus, walk: Walk, result: Option<BranchResult>)

  /** Identity of an attempt: lineage generation (the run id), place, node and attempt number. */
  datatype Attempt = Attempt(generation: nat, place: Option<Slot>, node: Id, number: nat)

  datatype Event =
    | Began(attempt: Attempt)
    | Ended(attempt: Attempt, result: Result)
    | Routed(place: Option<Slot>, edge: Edge, repair: bool)
    | Finished(ending: Ending)

  /** Where the thread inside `run` stands. `Dead`: the process is gone and must recover first. */
  datatype Pc =
    | Dead
    | Idle
    | Top
    | Calling(node: Id)
    | Holding(node: Id, result: Result)
    | Settling(node: Id)
    | Routing(node: Id)
    | Pooling(node: Id, first: bool)
    | Parking(leaves: bool)

  /** Where the pool thread of one branch stands. */
  datatype Thread =
    | Entering
    | Starting
    | Invoking
    | Querying
    | Answered(result: Result)
    | Leaving(result: Result)
    | Blocking(uncertain: bool)
    | Out(raised: bool)

  datatype State = State(
    status: RunStatus, barrier: Barrier, ending: Option<Ending>, report: Option<Ending>,
    budget: Budget, calls: nat, repairs: nat,
    top: Walk, branches: map<Slot, Branch>,
    pc: Pc, threads: map<Slot, Thread>, sweeping: bool, freezing: bool,
    history: seq<Event>, base: nat, generation: nat, invoked: seq<Attempt>)

  datatype Action = Pause | ResumeRun | Interrupt | OtherAction

  datatype Label =
    // the serial loop
    | Enter | Leave | SeePause | Park | Drain | Quit | HitLimit | Skip
    | Start(node: Id) | Refuse(node: Id, limit: bool) | Fail(node: Id)
    | Answer(result: Result) | AnswerJoin
    | Poll(node: Id, result: Result) | GiveUp(node: Id)
    | Resume(node: Id)
    | Persist | Abort | Honor | HitNodeLimit | Route | LateRoute(exhausted: bool)
    // a container's pool of branch threads
    | OpenPool(node: Id, pool: set<Slot>) | ClosePool | LateClose(stopped: bool)
    | Look(slot: Slot) | StartBranch(slot: Slot, limit: bool) | AnswerBranch(slot: Slot, result: Result)
    | PollBranch(slot: Slot, result: Result) | FailBranch(slot: Slot) | PersistBranch(slot: Slot)
    | RouteBranch(slot: Slot) | BlockBranch(slot: Slot)
    // everything around the loop
    | Control(action: Action) | Sweep | Cancel | Freeze | Crash | Recover | Restart(budget: Budget)

  /** A move of one branch thread. */
  predicate IsBranchMove(l: Label) {
    || l.Look? || l.StartBranch? || l.AnswerBranch? || l.PollBranch? || l.FailBranch? || l.PersistBranch?
    || l.RouteBranch? || l.BlockBranch?
  }

  /** A move of the serial loop that leaves the node rows alone. */
  predicate IsPlaceMove(l: Label) {
    || l.Enter? || l.Leave? || l.SeePause? || l.Park? || l.Drain? || l.Quit? || l.HitLimit? || l.Skip?
    || l.Refuse? || l.Fail? || l.GiveUp? || l.Answer? || l.AnswerJoin? || l.Abort? || l.Honor?
    || l.HitNodeLimit? || l.LateRoute?
  }

  /** A move around the loop: controls, crashes, recovery and restarts. */
  predicate IsAroundMove(l: Label) {
    l.Control? || l.Sweep? || l.Cancel? || l.Freeze? || l.Crash? || l.Recover? || l.Restart?
  }

  /** A move of the serial loop that writes a node row, or takes up or leaves a node's work. */
  predicate IsWorkMove(l: Label) { !IsPlaceMove(l) && !IsAroundMove(l) && !IsBranchMove(l) }

  // ---- branches of a graph ----

  function BranchesOf(k: Kind): seq<ParallelBranch> {
    match k
    case Parallel(_, branches) => branches
    case Nested(p) => [ParallelBranch("subgraph", p)]
    case _ => []
  }

  function Limit(k: Kind): nat {
    if k.Parallel? then k.maxConcurrency else 1
  }

  function Slots(g: Plan): set<Slot> {
    set n, b | n in g.nodes && b in BranchesOf(n.kind) :: Slot(n.id, b.id)
  }

  /** The persisted order of a branch: its position in its container. */
  ghost predicate IsBranchAt(g: Plan, slot: Slot, order: nat) {
    && slot.container in Ids(g)
    && order < |BranchesOf(NodeOf(g, slot.container).kind)|
    && BranchesOf(NodeOf(g, slot.container).kind)[order].id == slot.branch
  }

  lemma SlotHasOrder(g: Plan, slot: Slot)
    requires ValidGraph(g) && slot in Slots(g)
    ensures exists i: nat :: IsBranchAt(g, slot, i)
  {
    var n, b :| n in g.nodes && b in BranchesOf(n.kind) && Slot(n.id, b.id) == slot;
    NodeIsUnique(g, n);
    var i: nat :| i < |BranchesOf(n.kind)| && BranchesOf(n.kind)[i] == b;
    assert IsBranchAt(g, slot, i);
  }

  ghost function OrderOf(g: Plan, slot: Slot): (i: nat)
    requires ValidGraph(g) && slot in Slots(g)
    ensures IsBranchAt(g, slot, i)
  {
    SlotHasOrder(g, slot);
    var i: nat :| IsBranchAt(g, slot, i);
    i
  }

  ghost function PlanOf(g: Plan, slot: Slot): Plan
    requires ValidGraph(g) && slot in Slots(g)
  {
    BranchesOf(NodeOf(g, slot.container).kind)[OrderOf(g, slot)].subgraph
  }

  lemma PlanOfIsValid(g: Plan, slot: Slot)
    requires ValidGraph(g) && slot in Slots(g)
    ensures ValidSubgraph(PlanOf(g, slot))
  {
    var n := NodeOf(g, slot.container);
    assert ValidNode(g, n);
    assert BranchesOf(n.kind)[OrderOf(g, slot)] in BranchesOf(n.kind);
  }

  // ---- creation ----

  ghost function InitBranches(g: Plan): map<Slot, Branch>
    requires ValidGraph(g)
  {
    map slot | slot in Slots(g) :: Branch(PlanOf(g, slot), OrderOf(g, slot), Pending, Fresh(PlanOf(g, slot)), None)
  }

  ghost function Init(g: Plan, budget: Budget): State
    requires ValidGraph(g)
  {
    State(Running, NoBarrier, None, None, budget, 0, 0, Fresh(g), InitBranches(g), Idle, map[], false, false, [], 0, 0, [])
  }

  // ---- small transactions ----

  predicate IsOver(s: State) { s.status.Terminal? }

  predicate IsGoing(s: State) { s.status == Running && s.barrier == NoBarrier }

  function FinishRun(s: State, e: Ending): State {
    if IsOver(s) then s
    else s.(status := Terminal(e.status), barrier := NoBarrier, ending := Some(e), freezing := true,
            history := s.history + [Finished(e)])
  }

  /** `_pause_at_safe_point`: whatever the status has become since the pause was read, it is now paused. */
  function PauseAtSafePoint(s: State): State { s.(status := Paused) }

  const INTERRUPTED := Ending(RunInterrupted, HumanInterrupted, None)
  const EXHAUSTED := Ending(RunFailed, BudgetExhausted, None)
  const UNCERTAIN := Ending(RunErrored, ExecutionError, Some(UNCERTAIN_EFFECT))
  const CANCELLED := Ending(RunCancelled, HumanCancelled, None)
  const UNCERTAIN_EFFECT :=
    Error("external_effect.uncertain", "external side effect cannot be confirmed after recovery")
  const BOUNDARY := Executed(Errored, {}, "", Some(Error("runtime.boundary_exception", "exception")))

  /** The barrier is read; a pause is stored by a transaction of its own. */
  function HonorBarrier(s: State): State {
    match s.barrier
    case PauseBarrier => s.(pc := Parking(false))
    case InterruptBarrier => FinishRun(s, INTERRUPTED).(pc := Top)
    case _ => s.(pc := Top)
  }

  function CancelledResult(slot: Slot): BranchResult {
    BranchResult(slot.branch, Cancelled, {}, {}, [], None)
  }

  predicate IsUnsettled(b: Branch) { b.status.Pending? || b.status.Active? }

  function CancelBranch(slot: Slot, b: Branch, includeActive: bool): Branch {
    if b.status.Pending? || (includeActive && b.status.Active?)
    then b.(status := Closed(Cancelled), result := Some(CancelledResult(slot)))
    else b
  }

  function CancelBranches(bs: map<Slot, Branch>, includeActive: bool): (bs': map<Slot, Branch>)
    ensures bs'.Keys == bs.Keys
  {
    map slot | slot in bs :: CancelBranch(slot, bs[slot], includeActive)
  }

  // ---- scheduling queries ----

  /** The row `_next_node_row` returns: running before ready, then the smallest node id. */
  ghost predicate IsScheduled(rows: map<Id, Row>, n: Id) {
    && n in rows
    && ((rows[n].state.InFlight? && forall m | m in rows && rows[m].state.InFlight? :: m == n || Ordering.Less(n, m))
        || (rows[n].state.Ready? && (forall m | m in rows :: !rows[m].state.InFlight?)
            && forall m | m in rows && rows[m].state.Ready? :: m == n || Ordering.Less(n, m)))
  }

  predicate IsUnrouted(r: Row) { r.result.Some? && !r.routed }

  /** The row `_unresolved_result_row` returns once nothing is running or ready. */
  ghost predicate IsUnresolved(rows: map<Id, Row>, n: Id) {
    && n in rows && IsUnrouted(rows[n])
    && (forall m | m in rows :: !rows[m].state.InFlight? && !rows[m].state.Ready?)
    && (forall m | m in rows && IsUnrouted(rows[m]) :: m == n || Ordering.Less(n, m))
  }

  /** ORDER BY active first, then branch_order (which is unique within a container). */
  predicate Precedes(a: Branch, b: Branch) {
    || (a.status.Active? && !b.status.Active?)
    || (a.status.Active? == b.status.Active? && a.order < b.order)
  }

  ghost function UnsettledOf(bs: map<Slot, Branch>, n: Id): set<Slot> {
    set slot | slot in bs && slot.container == n && IsUnsettled(bs[slot])
  }

  ghost function ActiveOf(bs: map<Slot, Branch>, n: Id): set<Slot> {
    set slot | slot in bs && slot.container == n && bs[slot].status.Active?
  }

  /** The first `limit` unsettled branches in that order. */
  ghost predicate IsAdmission(bs: map<Slot, Branch>, n: Id, limit: nat, pool: set<Slot>) {
    var waiting := UnsettledOf(bs, n);
    && pool <= waiting
    && |pool| == (if |waiting| <= limit then |waiting| else limit)
    && (forall a, b | a in pool && b in waiting && b !in pool :: Precedes(bs[a], bs[b]))
  }

  // ---- attempts and results of the serial loop ----

  function MainAttempt(s: State, n: Id): Attempt
    requires n in s.top.rows
  {
    Attempt(s.generation, None, n, s.top.rows[n].attempts)
  }

  predicate WithinNodeCalls(r: Row) {
    r.node.budget.None? || r.attempts < r.node.budget.value.maxExecutorCalls
  }

  function StartAttempt(s: State, n: Id): State
    requires n in s.top.rows
  {
    var k := s.top.rows[n].node.kind;
    var s' := s.(top := Begin(s.top, n, IsExternal(k)),
                 calls := s.calls + if IsCounted(k) then 1 else 0);
    s'.(pc := Calling(n), history := s.history + [Began(MainAttempt(s', n))])
  }

  function PersistResult(s: State, n: Id, r: Result): State
    requires n in s.top.rows
  {
    if r.Awaiting? then s.(top := Checkpoint(s.top, n, r.externalHandle), pc := Top)
    else s.(top := Settle(s.top, n, r), pc := Settling(n), history := s.history + [Ended(MainAttempt(s, n), r)])
  }

  function EndingFor(r: Result): Ending
    requires !r.Awaiting?
  {
    match OutcomeOf(r)
    case Succeeded => Ending(RunSucceeded, Completed, None)
    case Failed => Ending(RunFailed, AcceptanceFailed, None)
    case Blocked => EXHAUSTED
    case Cancelled => CANCELLED
    case Errored => Ending(RunErrored, ExecutionError, ErrorOf(r))
  }

  predicate WithinNodeRepairs(r: Row) {
    r.node.budget.None? || r.repairs < r.node.budget.value.maxRepairIterations
  }

  predicate ValidRoute(g: Plan, s: State, n: Id) {
    && n in s.top.rows && !s.top.rows[n].routed
    && s.top.rows[n].result.Some? && !s.top.rows[n].result.value.Awaiting?
    && (forall e | e in g.edges :: e.from in s.top.rows && e.to in s.top.rows)
  }

  lemma SameRoute(g: Plan, s: State, n: Id)
    ensures ValidRoute(g, s, n) ==> ValidRoute(g, s.(barrier := NoBarrier), n)
  {
  }

  /** What `_route_result` decides before it writes. */
  datatype RouteChoice = Held | Ends(ending: Ending) | Moves(edge: Edge, repair: bool)

  function ChooseRoute(g: Plan, s: State, n: Id): (c: RouteChoice)
    requires ValidRoute(g, s, n)
    ensures c.Moves? ==> c.edge in g.edges && c.edge.from in s.top.rows && c.edge.to in s.top.rows
  {
    var row := s.top.rows[n];
    var r := row.result.value;
    if s.barrier != NoBarrier then Held
    else
      match Select(g.edges, s.top.counts, n, r, row.attempts)
      case None => Ends(EndingFor(r))
      case Some(e) =>
        var repair := IsRepair(e, r);
        if repair && (s.repairs >= s.budget.maxRepairIterations || !WithinNodeRepairs(row)) then Ends(EXHAUSTED)
        else Moves(e, repair)
  }

  function CommitRoute(s: State, c: RouteChoice): State
    requires c.Moves? ==> c.edge.from in s.top.rows && c.edge.to in s.top.rows
  {
    match c
    case Held => HonorBarrier(s)
    case Ends(e) => FinishRun(s, e).(pc := Top)
    case Moves(e, repair) =>
      s.(top := Advance(s.top, e, repair), repairs := s.repairs + (if repair then 1 else 0),
         pc := Top, history := s.history + [Routed(None, e, repair)])
  }

  /**
   `_route_result` reads the barrier before it selects, and again only in the transaction that
   takes an edge. With a control in between, a run without an open edge ends all the same and an
   edge is left to a later turn; with a control after the transaction that finds the repairs
   exhausted, the run ends for that.
   */
  function ChooseLateRoute(g: Plan, s: State, n: Id, exhausted: bool): RouteChoice
    requires ValidRoute(g, s, n)
  {
    var row := s.top.rows[n];
    match ChooseRoute(g, s.(barrier := NoBarrier), n)
    case Ends(e) =>
      if exhausted || Select(g.edges, s.top.counts, n, row.result.value, row.attempts).None? then Ends(e) else Held
    case _ => Held
  }

  function CommitLateRoute(s: State, c: RouteChoice): State {
    (if c.Ends? then FinishRun(s, c.ending) else s).(pc := Top)
  }

  function JoinResult(s: State, n: Id): Result
    requires n in s.top.rows && s.top.rows[n].node.kind.Join?
  {
    var source := s.top.rows[n].node.kind.parallelNodeId;
    if source in s.top.rows && s.top.rows[source].result.Some? && s.top.rows[source].result.value.Joined?
    then s.top.rows[source].result.value
    else BOUNDARY
  }

  // ---- attempts and results of a branch thread ----

  ghost predicate ValidBranchNode(s: State, slot: Slot) { slot in s.branches && AtRow(s.branches[slot].walk) }

  function NodeAt(s: State, slot: Slot): Id
    requires ValidBranchNode(s, slot)
  {
    s.branches[slot].walk.at.value
  }

  function RowAt(s: State, slot: Slot): Row
    requires ValidBranchNode(s, slot)
  {
    Current(s.branches[slot].walk)
  }

  function BranchAttempt(s: State, slot: Slot): Attempt
    requires ValidBranchNode(s, slot)
  {
    Attempt(s.generation, Some(slot), NodeAt(s, slot), RowAt(s, slot).attempts)
  }

  function SetThread(s: State, slot: Slot, t: Thread): State { s.(threads := s.threads[slot := t]) }

  function SetBranch(s: State, slot: Slot, b: Branch): State { s.(branches := s.branches[slot := b]) }

  function LookAtBranch(s: State, slot: Slot): Thread
    requires slot in s.branches
    requires s.branches[slot].walk.at.Some? ==> AtRow(s.branches[slot].walk)
  {
    if s.barrier != NoBarrier || s.branches[slot].walk.at.None? then Out(false)
    else
      var row := RowAt(s, slot);
      if row.state.InFlight? then (if row.trigger.Checkpointed? then Querying else Blocking(true))
      else if IsUnrouted(row) then Leaving(row.result.value)
      else Starting
  }

  /** What the start transaction of a branch decides: refuse, or begin the attempt. */
  datatype StartChoice = Turned(thread: Thread) | Begins

  function ChooseStart(s: State, slot: Slot, limit: bool): StartChoice
    requires ValidBranchNode(s, slot)
  {
    var row := RowAt(s, slot);
    if !IsGoing(s) then Turned(Out(true))
    else if s.calls >= s.budget.maxExecutorCalls then Turned(Blocking(false))
    else if !row.state.Ready? then Turned(Out(true))
    else if limit || !WithinNodeCalls(row) then Turned(Blocking(false))
    else Begins
  }

  function BeginBranch(b: Branch): Branch
    requires AtRow(b.walk)
  {
    b.(status := Active, walk := Begin(b.walk, b.walk.at.value, IsExternal(Current(b.walk).node.kind)))
  }

  function CommitStart(s: State, slot: Slot, c: StartChoice): State
    requires ValidBranchNode(s, slot)
  {
    match c
    case Turned(t) => SetThread(s, slot, t)
    case Begins =>
      var s' := SetBranch(s, slot, BeginBranch(s.branches[slot]));
      SetThread(s', slot, Invoking).(calls := s.calls + 1, history := s.history + [Began(BranchAttempt(s', slot))])
  }

  function PollBranchHandle(s: State, slot: Slot, r: Result): State
    requires ValidBranchNode(s, slot)
  {
    var b := s.branches[slot];
    SetThread(SetBranch(s, slot, b.(walk := Polled(b.walk, NodeAt(s, slot)))), slot, Answered(r))
  }

  function PersistBranchResult(s: State, slot: Slot, r: Result): State
    requires ValidBranchNode(s, slot)
  {
    var b := s.branches[slot];
    if r.Awaiting? then
      if r.externalHandle == "" then SetThread(s, slot, Out(true))
      else SetThread(SetBranch(s, slot, b.(walk := Checkpoint(b.walk, NodeAt(s, slot), r.externalHandle))), slot, Out(false))
    else if IsOver(s) then SetThread(s, slot, Out(false))
    else
      SetThread(SetBranch(s, slot, b.(walk := Settle(b.walk, NodeAt(s, slot), r))), slot, Leaving(r))
        .(history := s.history + [Ended(BranchAttempt(s, slot), r)])
  }

  function ChangedFiles(r: Row): set<string> {
    if r.result.Some? && r.result.value.Executed? then r.result.value.changedFiles else {}
  }

  function FinishedBranchResult(slot: Slot, w: Walk, r: Result): BranchResult
    requires !r.Awaiting?
  {
    BranchResult(
      slot.branch, OutcomeOf(r),
      set id | id in w.rows && w.rows[id].state == Settled(Succeeded),
      set id, file | id in w.rows && file in ChangedFiles(w.rows[id]) :: file,
      (match r
       case Executed(_, _, reason, _) => if reason != "" then [reason] else []
       case Verified(_, _, details, _) => details
       case _ => []),
      ErrorOf(r))
  }

  function Close(b: Branch, r: BranchResult): Branch {
    b.(status := Closed(r.outcome), result := Some(r), walk := b.walk.(at := None))
  }

  function CloseBranch(s: State, slot: Slot, r: BranchResult): State
    requires slot in s.branches
  {
    SetThread(SetBranch(s, slot, Close(s.branches[slot], r)), slot, Out(false))
  }

  /** What a branch's `_route` decides before it writes. */
  datatype BranchChoice = Stays | Blocks | Closes(result: BranchResult) | Walks(edge: Edge, repair: bool)

  predicate EdgesHaveRows(b: Branch) {
    forall e | e in b.plan.edges :: e.from in b.walk.rows && e.to in b.walk.rows
  }

  function ChooseBranchRoute(s: State, slot: Slot, r: Result): (c: BranchChoice)
    requires ValidBranchNode(s, slot) && !r.Awaiting?
    ensures c.Walks? ==> c.edge in s.branches[slot].plan.edges && c.edge.from == NodeAt(s, slot)
    ensures c.Walks? && EdgesHaveRows(s.branches[slot]) ==>
      c.edge.from in s.branches[slot].walk.rows && c.edge.to in s.branches[slot].walk.rows
  {
    var b := s.branches[slot];
    match Select(b.plan.edges, b.walk.counts, NodeAt(s, slot), r, RowAt(s, slot).attempts)
    case None => Closes(FinishedBranchResult(slot, b.walk, r))
    case Some(e) =>
      var repair := IsRepair(e, r);
      if s.barrier != NoBarrier then Stays
      else if repair && s.repairs >= s.budget.maxRepairIterations then Blocks
      else Walks(e, repair)
  }

  function CommitBranchRoute(s: State, slot: Slot, c: BranchChoice): State
    requires slot in s.branches
    requires c.Walks? ==> c.edge.from in s.branches[slot].walk.rows && c.edge.to in s.branches[slot].walk.rows
  {
    match c
    case Stays => SetThread(s, slot, Out(false))
    case Blocks => SetThread(s, slot, Blocking(false))
    case Closes(r) => CloseBranch(s, slot, r)
    case Walks(e, repair) =>
      var b := s.branches[slot];
      SetThread(SetBranch(s, slot, b.(walk := Advance(b.walk, e, repair))), slot, Out(false))
        .(repairs := s.repairs + (if repair then 1 else 0), history := s.history + [Routed(Some(slot), e, repair)])
  }

  function BlockedResult(slot: Slot, uncertain: bool): BranchResult {
    if uncertain
    then BranchResult(slot.branch, Errored, {}, {}, [],
                      Some(Error("parallel.external_uncertain", "external trigger outcome is uncertain")))
    else BranchResult(slot.branch, Blocked, {}, {}, [],
                      Some(Error("parallel.budget_exhausted", "shared budget exhausted")))
  }

  // ---- combining a container's branches ----

  ghost function BranchIdsOf(bs: map<Slot, Branch>, n: Id): set<Id> {
    set slot | slot in bs && slot.container == n :: slot.branch
  }

  /** The container's branch results in ascending branch id order. */
  ghost function ResultsOf(bs: map<Slot, Branch>, n: Id): seq<BranchResult>
    requires forall slot | slot in bs && slot.container == n :: bs[slot].result.Some?
  {
    var ids := Ordering.Ascending(BranchIdsOf(bs, n));
    seq(|ids|, i requires 0 <= i < |ids| =>
      assert ids[i] in BranchIdsOf(bs, n); bs[Slot(n, ids[i])].result.value)
  }

  function Worst(rs: seq<BranchResult>): (o: Outcome)
    requires rs != []
    ensures exists r | r in rs :: r.outcome == o
    ensures forall r | r in rs :: Precedence(r.outcome) <= Precedence(o)
  {
    if |rs| == 1 then rs[0].outcome
    else
      var rest := Worst(rs[1..]);
      assert forall r | r in rs :: r == rs[0] || r in rs[1..];
      assert forall r | r in rs[1..] :: r in rs;
      if Precedence(rs[0].outcome) > Precedence(rest) then rs[0].outcome else rest
  }

  function Prefixed(id: Id, details: seq<string>): seq<string> {
    seq(|details|, i requires 0 <= i < |details| => id + ": " + details[i])
  }

  function AllDetails(rs: seq<BranchResult>): seq<string> {
    if rs == [] then [] else Prefixed(rs[0].branchId, rs[0].failureDetails) + AllDetails(rs[1..])
  }

  function Affected(rs: seq<BranchResult>): seq<Id> {
    if rs == [] then []
    else (if rs[0].error.Some? then [rs[0].branchId] else []) + Affected(rs[1..])
  }

  function JoinNames(ids: seq<Id>): string {
    if ids == [] then "" else if |ids| == 1 then ids[0] else ids[0] + ", " + JoinNames(ids[1..])
  }

  function Combine(n: Id, rs: seq<BranchResult>): ParallelResult
    requires rs != []
  {
    var o := Worst(rs);
    ParallelResult(
      n, o, rs, set r, file | r in rs && file in r.changedFiles :: file, AllDetails(rs),
      if o == Errored || o == Blocked then
        Some(Error(if o == Errored then "parallel.branch_error" else "parallel.blocked",
                   "parallel branches did not succeed: " + JoinNames(Affected(rs))))
      else None)
  }

  function JoinDetails(details: seq<string>): string {
    if details == [] then ""
    else if |details| == 1 then details[0]
    else details[0] + "; " + JoinDetails(details[1..])
  }

  /** `_subgraph_result`: a nested container answers like an executor. */
  function SubgraphResult(b: BranchResult): Result {
    match b.outcome
    case Succeeded => Executed(Succeeded, b.changedFiles, "", None)
    case Failed => Executed(Failed, b.changedFiles, JoinDetails(b.failureDetails), None)
    case Cancelled => Executed(Cancelled, b.changedFiles, "", None)
    case _ => Executed(Errored, b.changedFiles, "", b.error)
  }

  /** What `step` returns once the pool is done: nothing, an exception, or the container's result. */
  datatype StepAnswer = Nothing | Raises | Yields(result: Result)

  ghost function Aggregate(k: Kind, bs: map<Slot, Branch>, n: Id): StepAnswer {
    if BranchIdsOf(bs, n) == {} || UnsettledOf(bs, n) != {}
       || exists slot | slot in bs && slot.container == n :: bs[slot].result.None?
    then Nothing
    else
      var rs := ResultsOf(bs, n);
      if k.Parallel? then Yields(Joined(Combine(n, rs)))
      else if ValidResult(SubgraphResult(rs[0])) then Yields(SubgraphResult(rs[0]))
      else Raises
  }

  /** A thread's exception surfaces when the pool is done. */
  ghost predicate HasRaised(ts: map<Slot, Thread>) { exists slot | slot in ts :: ts[slot] == Out(true) }

  /** `stopped`: an interrupt or a cancel was read once the threads were done. */
  ghost function AfterPool(s: State, n: Id, first: bool, stopped: bool): State
    requires n in s.top.rows
  {
    var s' := s.(threads := map[]);
    var raised := if first then Holding(n, BOUNDARY) else Idle;
    if HasRaised(s.threads) then s'.(pc := raised)
    else if stopped then
      s'.(pc := Top, branches := CancelBranches(s.branches, true))
    else
      match Aggregate(s.top.rows[n].node.kind, s.branches, n)
      case Nothing => s'.(pc := Top)
      case Raises => s'.(pc := raised)
      case Yields(r) => s'.(pc := Holding(n, r))
  }

  // ---- recovery and restart ----

  /** A trigger without a checkpointed handle anywhere, or a local attempt that was cut off. */
  ghost predicate IsUncertain(s: State) {
    || (exists id | id in s.top.rows :: s.top.rows[id].trigger.Triggering? || IsCutOff(s.top.rows[id]))
    || (exists slot, id | slot in s.branches && id in s.branches[slot].walk.rows ::
          s.branches[slot].walk.rows[id].trigger.Triggering?)
  }

  predicate IsCutOff(r: Row) {
    IsCounted(r.node.kind) && r.state.InFlight? && !r.trigger.Checkpointed?
  }

  function InheritBranch(b: Branch): Branch {
    b.(status := if b.status.Active? then Pending else b.status, walk := Inherit(b.walk, true))
  }

  function InheritBranches(bs: map<Slot, Branch>): map<Slot, Branch> {
    map slot | slot in bs :: InheritBranch(bs[slot])
  }

  function RestartFrom(s: State, budget: Budget): State {
    State(Running, NoBarrier, None, None, budget, 0, 0, Inherit(s.top, false),
          InheritBranches(s.branches),
          Idle, map[], false, false, s.history, |s.history|, s.generation + 1, s.invoked)
  }

  function ApplyControl(s: State, a: Action): State {
    match a
    case Pause => if s.status == Running then s.(status := PauseRequested, barrier := PauseBarrier) else s
    case ResumeRun => if s.status == Paused then s.(status := Running, barrier := NoBarrier) else s
    case Interrupt =>
      if s.status == Running || s.status == PauseRequested || s.status == Paused
      then s.(status := Quiescing, barrier := InterruptBarrier, sweeping := true) else s
    case OtherAction => s
  }

  // ---- the transition function ----

  /**
   Within a turn of the loop that works on `n`, the row the scheduler picks. The turn found the
   run neither paused nor over; controls may have come since, but none of them stores a pause.
   */
  ghost predicate IsPicked(s: State, n: Id) { s.pc == Top && s.status != Paused && IsScheduled(s.top.rows, n) }

  /** And no control has come since. */
  ghost predicate CanSchedule(s: State, n: Id) { s.pc == Top && IsGoing(s) && IsScheduled(s.top.rows, n) }

  ghost predicate HasThread(s: State, slot: Slot) { slot in s.threads && slot in s.branches }

  ghost predicate HasBranchNode(s: State, slot: Slot) { HasThread(s, slot) && ValidBranchNode(s, slot) }

  /** The thread called the executor or verifier, or is about to. */
  ghost predicate IsAsking(s: State) {
    s.pc.Calling? && s.pc.node in s.top.rows && !IsContainer(s.top.rows[s.pc.node].node.kind)
  }

  /** The call budget or the node's own budget refuses another attempt at `n`. */
  predicate IsRefused(s: State, r: Row) {
    || (IsCounted(r.node.kind) && s.calls >= s.budget.maxExecutorCalls)
    || !WithinNodeCalls(r)
  }

  /** A running node whose handle can be asked about. */
  predicate IsPollable(r: Row) { r.state.InFlight? && !IsContainer(r.node.kind) && r.trigger.Checkpointed? }

  predicate ClosesPool(l: Label) { l.ClosePool? || l.LateClose? }

  /** Whether the read after the threads found an interrupt or a cancel. */
  predicate IsStopRead(s: State, l: Label) {
    if l.LateClose? then l.stopped else s.barrier == InterruptBarrier || s.barrier == CancelBarrier
  }

  ghost predicate AllOut(s: State) {
    s.pc.Pooling? && s.pc.node in s.top.rows && forall slot | slot in s.threads :: s.threads[slot].Out?
  }

  ghost predicate EnabledPlace(g: Plan, s: State, l: Label)
    requires IsPlaceMove(l)
  {
    match l
    case Enter => s.pc == Idle
    case Leave => s.pc == Top
    case SeePause => s.pc == Top && s.status == PauseRequested
    case Park => s.pc.Parking?
    case Drain => s.pc == Top && s.barrier == InterruptBarrier && s.status != Paused
    case Quit => s.pc == Top && s.barrier == InterruptBarrier && s.status != Paused
        && forall slot | slot in s.branches :: !IsUnsettled(s.branches[slot])
    case HitLimit => s.pc == Top && s.status != Paused
    case Skip => !IsGoing(s)
        && (s.pc == Top || s.pc.Routing?
            || (s.pc.Calling? && s.pc.node in s.top.rows && IsContainer(s.top.rows[s.pc.node].node.kind)
                && s.barrier != NoBarrier))
    case Refuse(n, limit) => IsPicked(s, n) && s.top.rows[n].state.Ready?
        && (limit || IsRefused(s, s.top.rows[n]))
    case Fail(n) => IsPicked(s, n)
        && ((s.top.rows[n].state.Ready? && !IsGoing(s)) || IsPollable(s.top.rows[n]))
    case GiveUp(n) => IsPicked(s, n) && !IsOver(s) && s.top.rows[n].state.InFlight?
        && !IsContainer(s.top.rows[n].node.kind) && !s.top.rows[n].trigger.Checkpointed?
    case Answer(r) => IsAsking(s) && !s.top.rows[s.pc.node].node.kind.Join?
        && Fits(s.top.rows[s.pc.node].node.kind, r)
    case AnswerJoin => IsAsking(s) && s.top.rows[s.pc.node].node.kind.Join?
    case Abort => s.pc.Holding? && s.pc.result == Awaiting("")
    case Honor => s.pc.Settling?
    case HitNodeLimit => s.pc.Routing?
    case LateRoute(_) => s.pc.Routing? && s.barrier != NoBarrier && ValidRoute(g, s, s.pc.node)
  }

  ghost predicate EnabledWork(g: Plan, s: State, l: Label)
    requires IsWorkMove(l)
  {
    match l
    case Start(n) => CanSchedule(s, n) && s.top.rows[n].state.Ready? && !IsRefused(s, s.top.rows[n])
    case Poll(n, r) => CanSchedule(s, n) && IsPollable(s.top.rows[n]) && Fits(s.top.rows[n].node.kind, r)
    case Resume(n) => s.pc == Top && IsGoing(s) && IsUnresolved(s.top.rows, n)
    case Persist => s.pc.Holding? && s.pc.node in s.top.rows && s.pc.result != Awaiting("")
    case Route => s.pc.Routing? && ValidRoute(g, s, s.pc.node)
    case OpenPool(n, pool) => n in s.top.rows && IsContainer(s.top.rows[n].node.kind) && s.barrier == NoBarrier
        && (s.pc == Calling(n)
            || (IsPicked(s, n) && s.top.rows[n].state.InFlight? && (IsGoing(s) || UnsettledOf(s.branches, n) == {})))
        && IsAdmission(s.branches, n, Limit(s.top.rows[n].node.kind), pool)
    case ClosePool => AllOut(s)
    case LateClose(_) => AllOut(s) && (s.barrier == InterruptBarrier || IsOver(s))
  }

  ghost predicate EnabledBranch(s: State, l: Label)
    requires IsBranchMove(l)
  {
    match l
    case Look(slot) => HasThread(s, slot) && s.threads[slot].Entering?
        && (s.branches[slot].walk.at.Some? ==> AtRow(s.branches[slot].walk))
    case StartBranch(slot, _) => HasBranchNode(s, slot) && s.threads[slot].Starting?
    case AnswerBranch(slot, r) => HasBranchNode(s, slot) && s.threads[slot].Invoking?
        && Fits(RowAt(s, slot).node.kind, r)
    case PollBranch(slot, r) => HasBranchNode(s, slot) && s.threads[slot].Querying?
        && Fits(RowAt(s, slot).node.kind, r)
    case FailBranch(slot) => HasThread(s, slot) && s.threads[slot].Querying?
    case PersistBranch(slot) => HasBranchNode(s, slot) && s.threads[slot].Answered?
    case RouteBranch(slot) => HasBranchNode(s, slot) && s.threads[slot].Leaving?
        && !s.threads[slot].result.Awaiting? && EdgesHaveRows(s.branches[slot])
    case BlockBranch(slot) => HasThread(s, slot) && s.threads[slot].Blocking?
  }

  ghost predicate EnabledAround(s: State, l: Label)
    requires IsAroundMove(l)
  {
    match l
    case Control(_) => true
    case Sweep => s.sweeping
    case Cancel => true
    case Freeze => s.freezing
    case Crash => true
    case Recover => s.pc == Dead || s.pc == Idle
    case Restart(_) => true
  }

  ghost predicate Enabled(g: Plan, s: State, l: Label) {
    if IsPlaceMove(l) then EnabledPlace(g, s, l)
    else if IsAroundMove(l) then EnabledAround(s, l)
    else if IsBranchMove(l) then EnabledBranch(s, l)
    else EnabledWork(g, s, l)
  }

  ghost function ApplyPlace(g: Plan, s: State, l: Label): State
    requires IsPlaceMove(l) && EnabledPlace(g, s, l)
  {
    match l
    case Enter => s.(pc := Top)
    case Leave => s.(pc := Idle)
    case SeePause => s.(pc := Parking(true))
    case Park => PauseAtSafePoint(s).(pc := if s.pc.leaves then Idle else Top)
    case Drain => s.(branches := CancelBranches(s.branches, true))
    case Quit => FinishRun(s, INTERRUPTED).(pc := Idle)
    case HitLimit => FinishRun(s, EXHAUSTED).(pc := Idle)
    case Skip => s.(pc := Top)
    case Refuse(n, _) => FinishRun(s, EXHAUSTED).(pc := Idle)
    case Fail(n) => s.(pc := Idle)
    case GiveUp(n) => FinishRun(s, UNCERTAIN)
    case Answer(r) => s.(pc := Holding(s.pc.node, r), invoked := s.invoked + [MainAttempt(s, s.pc.node)])
    case AnswerJoin => s.(pc := Holding(s.pc.node, JoinResult(s, s.pc.node)))
    case Abort => s.(pc := Idle)
    case Honor =>
      if s.barrier == PauseBarrier || s.barrier == InterruptBarrier then HonorBarrier(s)
      else if IsOver(s) then s.(pc := Top)
      else s.(pc := Routing(s.pc.node))
    case HitNodeLimit => FinishRun(s, EXHAUSTED).(pc := Top)
    case LateRoute(exhausted) => CommitLateRoute(s, ChooseLateRoute(g, s, s.pc.node, exhausted))
  }

  ghost function ApplyWork(g: Plan, s: State, l: Label): State
    requires IsWorkMove(l) && EnabledWork(g, s, l)
  {
    match l
    case Start(n) => StartAttempt(s, n)
    case Poll(n, r) => s.(top := Polled(s.top, n), pc := Holding(n, r))
    case Resume(n) => s.(pc := Routing(n))
    case Persist => PersistResult(s, s.pc.node, s.pc.result)
    case Route => CommitRoute(s, ChooseRoute(g, s, s.pc.node))
    case OpenPool(n, pool) =>
      s.(pc := Pooling(n, s.pc.Calling?), threads := map slot | slot in pool :: Entering)
    case ClosePool => AfterPool(s, s.pc.node, s.pc.first, IsStopRead(s, l))
    case LateClose(_) => AfterPool(s, s.pc.node, s.pc.first, IsStopRead(s, l))
  }

  ghost function ApplyBranch(s: State, l: Label): State
    requires IsBranchMove(l) && EnabledBranch(s, l)
  {
    match l
    case Look(slot) => SetThread(s, slot, LookAtBranch(s, slot))
    case StartBranch(slot, limit) => CommitStart(s, slot, ChooseStart(s, slot, limit))
    case AnswerBranch(slot, r) =>
      SetThread(s, slot, Answered(r)).(invoked := s.invoked + [BranchAttempt(s, slot)])
    case PollBranch(slot, r) => PollBranchHandle(s, slot, r)
    case FailBranch(slot) => SetThread(s, slot, Out(true))
    case PersistBranch(slot) => PersistBranchResult(s, slot, s.threads[slot].result)
    case RouteBranch(slot) => CommitBranchRoute(s, slot, ChooseBranchRoute(s, slot, s.threads[slot].result))
    case BlockBranch(slot) => CloseBranch(s, slot, BlockedResult(slot, s.threads[slot].uncertain))
  }

  ghost function ApplyAround(s: State, l: Label): State
    requires IsAroundMove(l) && EnabledAround(s, l)
  {
    match l
    case Control(a) => ApplyControl(s, a)
    case Sweep => s.(branches := CancelBranches(s.branches, false), sweeping := false)
    case Cancel => if IsOver(s) then s else FinishRun(s.(branches := CancelBranches(s.branches, true)), CANCELLED)
    case Freeze => s.(report := if s.report.None? && IsOver(s) then s.ending else s.report, freezing := false)
    case Crash => s.(pc := Dead, threads := map[], sweeping := false, freezing := false)
    case Recover => (if IsUncertain(s) then FinishRun(s, UNCERTAIN) else s).(pc := Idle)
    case Restart(budget) => RestartFrom(s, budget)
  }

  /** The state after an enabled label; any other label does nothing. */
  ghost function Apply(g: Plan, s: State, l: Label): State {
    if !Enabled(g, s, l) then s
    else if IsPlaceMove(l) then ApplyPlace(g, s, l)
    else if IsAroundMove(l) then ApplyAround(s, l)
    else if IsBranchMove(l) then ApplyBranch(s, l)
    else ApplyWork(g, s, l)
  }

  lemma PlaceApplies(g: Plan, s: State, l: Label)
    requires Enabled(g, s, l) && IsPlaceMove(l)
    ensures EnabledPlace(g, s, l) && Apply(g, s, l) == ApplyPlace(g, s, l)
  {
    hide EnabledPlace, ApplyPlace;
  }

  lemma WorkApplies(g: Plan, s: State, l: Label)
    requires Enabled(g, s, l) && IsWorkMove(l)
    ensures EnabledWork(g, s, l) && Apply(g, s, l) == ApplyWork(g, s, l)
  {
    hide EnabledWork, ApplyWork;
  }

  lemma BranchApplies(g: Plan, s: State, l: Label)
    requires Enabled(g, s, l) && IsBranchMove(l)
    ensures EnabledBranch(s, l) && Apply(g, s, l) == ApplyBranch(s, l)
  {
    hide EnabledBranch, ApplyBranch;
  }

  lemma AroundApplies(g: Plan, s: State, l: Label)
    requires Enabled(g, s, l) && IsAroundMove(l)
    ensures EnabledAround(s, l) && Apply(g, s, l) == ApplyAround(s, l)
  {
    hide EnabledAround, ApplyAround;
  }

  // ---- runs ----

  ghost predicate IsRun(g: Plan, s: State, ls: seq<Label>)
    decreases |ls|
  {
    ls == [] || (Enabled(g, s, ls[0]) && IsRun(g, Apply(g, s, ls[0]), ls[1..]))
  }

  ghost function Exec(g: Plan, s: State, ls: seq<Label>): State
    decreases |ls|
  {
    if ls == [] then s else Exec(g, Apply(g, s, ls[0]), ls[1..])
  }

  /** Some run of this graph, with whatever answers, controls, crashes and restarts, leads here. */
  ghost predicate Reachable(g: Plan, budget: Budget, s: State) {
    ValidGraph(g) && exists ls :: IsRun(g, Init(g, budget), ls) && Exec(g, Init(g, budget), ls) == s
  }
}
