/**
 The delivery gate. In every run of a compiled graph, for all answers, controls, crashes and
 restarts, `deliver` starts only after every verifier, in order, and then review have begun
 and passed since the last implement, repair or review_fix attempt; and a run succeeds only
 if `deliver` itself did.
 */
module Delivery {
  import opened Options
  import opened Graphs
  import opened Results
  import opened Walks
  import opened Reports
  import opened Machine
  import opened Tokens
  import opened Effects
  import opened Admission
  import opened Discipline
  import opened Compiler

  // ---- stages of the compiled graph ----

  datatype Stage = Inspecting | Writing | Gating(k: nat) | Delivering | Elsewhere

  predicate IsWriter(id: Id) { id == "implement" || id == "repair" || id == "review_fix" }

  ghost predicate IsGate(ids: seq<string>, k: nat, id: Id) { k <= |ids| && id == Gate(ids, k) }

  ghost function StageOf(ids: seq<string>, id: Id): Stage {
    if id == "inspect" then Inspecting
    else if IsWriter(id) then Writing
    else if id == "deliver" then Delivering
    else if exists k: nat :: IsGate(ids, k, id) then (var k: nat :| IsGate(ids, k, id); Gating(k))
    else Elsewhere
  }

  lemma StageOfGate(ids: seq<string>, k: nat)
    requires IsDistinct(ids) && k <= |ids|
    ensures StageOf(ids, Gate(ids, k)) == Gating(k)
  {
    hide Gate;
    GateIsNoOther(ids, k);
    assert IsGate(ids, k, Gate(ids, k));
    forall j: nat | IsGate(ids, j, Gate(ids, k)) ensures j == k { if j != k { GatesDiffer(ids, j, k); } }
  }

  lemma StagesOfFixed(ids: seq<string>)
    ensures StageOf(ids, "inspect") == Inspecting && StageOf(ids, "implement") == Writing
    ensures StageOf(ids, "repair") == Writing && StageOf(ids, "review_fix") == Writing
    ensures StageOf(ids, "deliver") == Delivering
  {
    FixedIdsDiffer();
  }

  function After(ids: seq<string>, k: nat): Stage { if k < |ids| then Gating(k + 1) else Delivering }

  function PassText(ids: seq<string>, k: nat): string { if k < |ids| then "passed" else "succeeded" }

  predicate Passes(ids: seq<string>, k: nat, r: Result) { StatusText(r) == PassText(ids, k) }

  lemma WhenMatches(from: Id, to: Id, status: string, m: Option<nat>, r: Result, attempt: nat)
    ensures ConditionMatches(When(from, to, status, m).condition.value, r, attempt) <==> StatusText(r) == status
  {
  }

  /** Where an open edge leads, and which edges are repairs. */
  lemma EdgeStages(ids: seq<string>, bound: nat, e: Edge, r: Result, attempt: nat)
    requires IsDistinct(ids) && IsCompiledEdge(ids, bound, e)
    requires e.condition.Some? ==> ConditionMatches(e.condition.value, r, attempt)
    ensures match StageOf(ids, e.from)
            case Inspecting => StageOf(ids, e.to) == Writing && !IsRepair(e, r)
            case Writing => StageOf(ids, e.to) == Gating(0) && !IsRepair(e, r)
            case Gating(k) =>
              && k <= |ids|
              && if IsRepair(e, r) then StageOf(ids, e.to) == Writing
                 else Passes(ids, k, r) && StageOf(ids, e.to) == After(ids, k)
            case _ => false
  {
    hide StageOf, ConditionMatches, StatusText;
    StagesOfFixed(ids);
    StageOfGate(ids, 0);
    StageOfGate(ids, |ids|);
    WhenMatches("review", "deliver", "succeeded", None, r, attempt);
    WhenMatches("review", "review_fix", "failed", Some(bound), r, attempt);
    if k: nat :| k < |ids| && IsLoopEdge(ids, bound, k, e) {
      StageOfGate(ids, k);
      StageOfGate(ids, k + 1);
      WhenMatches(Gate(ids, k), Gate(ids, k + 1), "passed", None, r, attempt);
      WhenMatches(Gate(ids, k), "repair", "failed", Some(bound), r, attempt);
    }
  }

  // ---- the trail of marks since the last write ----

  predicate IsWrite(e: Event) { e.Began? && e.attempt.place.None? && IsWriter(e.attempt.node) }

  predicate IsDelivery(e: Event) { e.Began? && e.attempt.place.None? && e.attempt.node == "deliver" }

  /** Mark 2k is the start of gate k, mark 2k+1 its passing. */
  predicate IsMark(ids: seq<string>, m: nat, e: Event) {
    if m % 2 == 0 then e.Began? && e.attempt.place.None? && e.attempt.node == Gate(ids, m / 2)
    else e.Ended? && e.attempt.place.None? && e.attempt.node == Gate(ids, m / 2) && Passes(ids, m / 2, e.result)
  }

  ghost predicate IsTrail(ids: seq<string>, h: seq<Event>, ps: seq<nat>) {
    && (forall i | 0 <= i < |ps| :: ps[i] < |h| && IsMark(ids, i, h[ps[i]]))
    && (forall i, j | 0 <= i < j < |ps| :: ps[i] < ps[j])
    && (ps != [] ==> forall i | ps[0] <= i < |h| :: !IsWrite(h[i]))
  }

  /** The first `m` marks are in the history, in order, after the last write. */
  ghost predicate Verified(ids: seq<string>, h: seq<Event>, m: nat) { exists ps: seq<nat> :: |ps| == m && IsTrail(ids, h, ps) }

  function AllMarks(ids: seq<string>): nat { 2 * (|ids| + 1) }

  lemma NothingIsVerified(ids: seq<string>, h: seq<Event>)
    ensures Verified(ids, h, 0)
  {
    assert IsTrail(ids, h, []);
  }

  lemma TrailExtends(ids: seq<string>, h: seq<Event>, e: Event, m: nat)
    requires Verified(ids, h, m) && !IsWrite(e)
    ensures Verified(ids, h + [e], m)
  {
    hide IsMark, IsWrite;
    var ps: seq<nat> :| |ps| == m && IsTrail(ids, h, ps);
    assert IsTrail(ids, h + [e], ps);
  }

  lemma TrailGrows(ids: seq<string>, h: seq<Event>, e: Event, m: nat)
    requires Verified(ids, h, m) && !IsWrite(e) && IsMark(ids, m, e)
    ensures Verified(ids, h + [e], m + 1)
  {
    hide IsMark, IsWrite;
    var ps: seq<nat> :| |ps| == m && IsTrail(ids, h, ps);
    assert IsTrail(ids, h + [e], ps + [|h|]);
  }

  lemma TrailShrinks(ids: seq<string>, h: seq<Event>, m: nat, n: nat)
    requires Verified(ids, h, m) && n <= m
    ensures Verified(ids, h, n)
  {
    hide IsMark, IsWrite;
    var ps: seq<nat> :| |ps| == m && IsTrail(ids, h, ps);
    assert IsTrail(ids, h, ps[..n]);
  }

  lemma OutcomeExtends(ids: seq<string>, h: seq<Event>, h': seq<Event>, m: nat)
    requires Verified(ids, h, m) && AddsOutcome(h, h')
    ensures Verified(ids, h', m)
  {
    hide Verified;
    if h' != h {
      assert h' == h + [h'[|h|]];
      TrailExtends(ids, h, h'[|h|], m);
    }
  }

  // ---- the invariant ----

  /** The marks that the token's place and state promise. */
  ghost function Promised(ids: seq<string>, id: Id, r: Row): nat {
    match StageOf(ids, id)
    case Gating(k) =>
      if r.state.Ready? then 2 * k
      else if r.state.InFlight? then 2 * k + 1
      else if r.result.Some? && Passes(ids, k, r.result.value) then 2 * k + 2
      else 0
    case Delivering => AllMarks(ids)
    case _ => 0
  }

  ghost predicate DeliveriesGated(ids: seq<string>, h: seq<Event>) {
    forall i | 0 <= i < |h| && IsDelivery(h[i]) :: Verified(ids, h[..i], AllMarks(ids))
  }

  /** The last attempt that began is one of the run's own at `id`, and it ended in `r`. */
  ghost predicate IsLastAnswer(h: seq<Event>, id: Id, r: Result) {
    exists i :: 0 <= i < |h| && IsAnswer(h[i], id, r) && forall j | i < j < |h| :: !h[j].Began?
  }

  predicate IsAnswer(e: Event, id: Id, r: Result) {
    e.Ended? && e.attempt.place.None? && e.attempt.node == id && e.result == r
  }

  ghost predicate Gated(ids: seq<string>, h: seq<Event>, w: Walk) {
    && AtRow(w)
    && Verified(ids, h, Promised(ids, w.at.value, Current(w)))
    && DeliveriesGated(ids, h)
    && (Current(w).state.Settled? && Current(w).result.Some? ==> IsLastAnswer(h, w.at.value, Current(w).result.value))
  }

  lemma DeliveriesExtend(ids: seq<string>, h: seq<Event>, e: Event)
    requires DeliveriesGated(ids, h) && (IsDelivery(e) ==> Verified(ids, h, AllMarks(ids)))
    ensures DeliveriesGated(ids, h + [e])
  {
    hide Verified;
    forall i | 0 <= i < |h + [e]| && IsDelivery((h + [e])[i]) ensures Verified(ids, (h + [e])[..i], AllMarks(ids)) {
      assert (h + [e])[..i] == h[..i];
      if i == |h| { assert h[..i] == h; }
    }
  }

  lemma AnswerStaysLast(h: seq<Event>, h': seq<Event>, id: Id, r: Result)
    requires IsLastAnswer(h, id, r) && AddsOutcome(h, h')
    ensures IsLastAnswer(h', id, r)
  {
    var i :| 0 <= i < |h| && IsAnswer(h[i], id, r) && forall j | i < j < |h| :: !h[j].Began?;
    assert h' == h || h' == h + [h'[|h|]];
    assert IsAnswer(h'[i], id, r);
  }

  /** An event that is neither a write nor a delivery, with the token left alone. */
  lemma OutcomeKeepsGated(ids: seq<string>, h: seq<Event>, h': seq<Event>, w: Walk)
    requires Gated(ids, h, w) && AddsOutcome(h, h')
    ensures Gated(ids, h', w)
  {
    hide Verified, DeliveriesGated, IsLastAnswer, Promised;
    OutcomeExtends(ids, h, h', Promised(ids, w.at.value, Current(w)));
    if h' != h {
      assert h' == h + [h'[|h|]];
      DeliveriesExtend(ids, h, h'[|h|]);
    }
    if Current(w).state.Settled? && Current(w).result.Some? {
      AnswerStaysLast(h, h', w.at.value, Current(w).result.value);
    }
  }

  lemma StageOfIdIsRight(ids: seq<string>, id: Id)
    ensures match StageOf(ids, id)
            case Writing => IsWriter(id)
            case Gating(k) => k <= |ids| && id == Gate(ids, k) && !IsWriter(id) && id != "deliver"
            case Delivering => id == "deliver" && !IsWriter(id)
            case _ => !IsWriter(id) && id != "deliver"
  {
    FixedIdsDiffer();
  }

  lemma StartKeepsGated(ids: seq<string>, s: State)
    requires AtRow(s.top) && Gated(ids, s.history, s.top) && Current(s.top).state.Ready?
    ensures var s' := StartAttempt(s, s.top.at.value); Gated(ids, s'.history, s'.top)
  {
    hide Verified, DeliveriesGated, StageOf, Gate, AllMarks;
    var n := s.top.at.value;
    var s' := StartAttempt(s, n);
    var e := Began(MainAttempt(s', n));
    assert s'.history == s.history + [e];
    StageOfIdIsRight(ids, n);
    DeliveriesExtend(ids, s.history, e);
    match StageOf(ids, n)
    case Gating(k) => TrailGrows(ids, s.history, e, 2 * k);
    case Delivering => TrailExtends(ids, s.history, e, AllMarks(ids));
    case _ => NothingIsVerified(ids, s'.history);
  }

  lemma PersistKeepsGated(ids: seq<string>, s: State, n: Id, r: Result)
    requires AtRow(s.top) && s.top.at == Some(n) && Gated(ids, s.history, s.top) && Current(s.top).state.InFlight?
    ensures var s' := PersistResult(s, n, r); Gated(ids, s'.history, s'.top)
  {
    hide Verified, DeliveriesGated, StageOf, Gate, AllMarks, Passes;
    if !r.Awaiting? {
      var s' := PersistResult(s, n, r);
      var e := Ended(MainAttempt(s, n), r);
      assert s'.history == s.history + [e];
      assert IsAnswer(s'.history[|s.history|], n, r);
      StageOfIdIsRight(ids, n);
      DeliveriesExtend(ids, s.history, e);
      match StageOf(ids, n)
      case Gating(k) =>
        if Passes(ids, k, r) { TrailGrows(ids, s.history, e, 2 * k + 1); }
        else { NothingIsVerified(ids, s'.history); }
      case Delivering => TrailExtends(ids, s.history, e, AllMarks(ids));
      case _ => NothingIsVerified(ids, s'.history);
    }
  }

  lemma MoveKeepsGated(ids: seq<string>, bound: nat, s: State, e: Edge, repair: bool)
    requires IsDistinct(ids) && AtRow(s.top) && Gated(ids, s.history, s.top)
    requires IsCompiledEdge(ids, bound, e) && s.top.at == Some(e.from) && e.to in s.top.rows && e.to != e.from
    requires Current(s.top).state.Settled? && Current(s.top).result.Some?
    requires e.condition.Some? ==>
      ConditionMatches(e.condition.value, Current(s.top).result.value, Current(s.top).attempts)
    ensures var s' := CommitRoute(s, Moves(e, repair)); Gated(ids, s'.history, s'.top)
  {
    hide Verified, DeliveriesGated, StageOf, Gate, Passes, ConditionMatches, IsCompiledEdge, IsRepair;
    var s' := CommitRoute(s, Moves(e, repair));
    var event := Routed(None, e, repair);
    assert s'.history == s.history + [event];
    EdgeStages(ids, bound, e, Current(s.top).result.value, Current(s.top).attempts);
    DeliveriesExtend(ids, s.history, event);
    NothingIsVerified(ids, s'.history);
    TrailExtends(ids, s.history, event, Promised(ids, e.from, Current(s.top)));
  }

  lemma RestartKeepsGated(ids: seq<string>, h: seq<Event>, w: Walk)
    requires Gated(ids, h, w)
    ensures Gated(ids, h, Inherit(w, false))
  {
    hide Verified, DeliveriesGated, StageOf, IsLastAnswer, Passes;
    var w' := Inherit(w, false);
    TrailShrinks(ids, h, Promised(ids, w.at.value, Current(w)), Promised(ids, w'.at.value, Current(w')));
  }

  // ---- every step of a compiled run ----

  ghost predicate IsCompiledRun(ids: seq<string>, bound: nat, g: Plan, s: State) {
    && IsDistinct(ids) && g == CompiledGraph(ids, bound)
    && Sound(g, s) && s.branches == map[]
  }

  lemma PollKeepsGated(ids: seq<string>, h: seq<Event>, w: Walk, n: Id)
    requires Gated(ids, h, w) && n in w.rows
    ensures Gated(ids, h, Polled(w, n))
  {
    hide Verified, DeliveriesGated, StageOf, IsLastAnswer, Passes;
  }

  lemma OpenEdge(g: Plan, s: State, n: Id)
    requires ValidRoute(g, s, n)
    ensures var c := ChooseRoute(g, s, n);
      c.Moves? ==>
        && c.edge in g.edges && c.edge.from == n
        && (c.edge.condition.Some? ==>
              ConditionMatches(c.edge.condition.value, s.top.rows[n].result.value, s.top.rows[n].attempts))
        && c.repair == IsRepair(c.edge, s.top.rows[n].result.value)
  {
    hide ConditionMatches, IsRepair;
    var row := s.top.rows[n];
    SelectIsFirst(g.edges, s.top.counts, n, row.result.value, row.attempts);
  }

  lemma RouteKeepsGated(ids: seq<string>, bound: nat, g: Plan, s: State)
    requires IsCompiledRun(ids, bound, g, s) && Enabled(g, s, Route) && Gated(ids, s.history, s.top)
    ensures var s' := Apply(g, s, Route); Gated(ids, s'.history, s'.top)
  {
    hide Sound, Gated, CompiledGraph, ChooseRoute, ValidRoute, CommitRoute, ConditionMatches, IsCompiledEdge, ValidPlan;
    RouteChoices(g, s);
    DoneRow(g, s);
    ChosenRouteIsAllowed(g, s, s.pc.node);
    var c := ChooseRoute(g, s, s.pc.node);
    var s' := CommitRoute(s, c);
    if c.Moves? {
      OpenEdge(g, s, s.pc.node);
      EdgesOfCompiled(ids, bound, c.edge);
      EdgesAreNoLoops(g, s, c.edge);
      MoveKeepsGated(ids, bound, s, c.edge, c.repair);
    } else {
      CommitLeavesTop(s, c);
      QuietHistory(s, s');
      OutcomeKeepsGated(ids, s.history, s'.history, s.top);
    }
  }

  lemma EdgesAreNoLoops(g: Plan, s: State, e: Edge)
    requires Sound(g, s) && e in g.edges
    ensures e.to != e.from
  {
    hide SoundWalk, SoundPc, SoundBranches, SoundThreads, SoundBarrier;
    assert ValidEdge(g, e);
  }

  lemma DoneRow(g: Plan, s: State)
    requires Sound(g, s) && s.pc.Routing?
    ensures AtRow(s.top) && s.top.at == Some(s.pc.node) && Current(s.top).state.Settled? && Current(s.top).result.Some?
    ensures HoldsResult(Current(s.top)) && Current(s.top).node in g.nodes && Current(s.top).node.id == s.pc.node
  {
    hide SoundBranches, SoundThreads, ValidPlan, SoundBarrier, Fits;
  }

  lemma CommitLeavesTop(s: State, c: RouteChoice)
    requires !c.Moves?
    ensures CommitRoute(s, c).top == s.top
  {
  }

  lemma QuietHistory(s: State, s': State)
    requires Quiet(s, s')
    ensures AddsOutcome(s.history, s'.history) && s'.calls == s.calls && s'.repairs == s.repairs && s'.budget == s.budget
  {
    hide AddsOutcome, SameTally, SameTallies;
  }

  lemma NoBranchMoves(g: Plan, s: State, l: Label)
    requires s.branches == map[] && Enabled(g, s, l)
    ensures !IsBranchMove(l)
  {
    hide Fits, EdgesHaveRows;
  }

  lemma StepKeepsGated(ids: seq<string>, bound: nat, g: Plan, s: State, l: Label)
    requires IsCompiledRun(ids, bound, g, s) && Gated(ids, s.history, s.top) && Enabled(g, s, l)
    ensures var s' := Apply(g, s, l); Gated(ids, s'.history, s'.top)
  {
    hide Sound, Gated, CompiledGraph, ChooseRoute, ValidRoute, CommitRoute, StartAttempt, PersistResult, IsRefused;
    hide Fits, IsScheduled, Inherit, InheritBranches, Quiet, AddsOutcome;
    NoBranchMoves(g, s, l);
    TokenRow(g, s);
    if l.Route? { RouteKeepsGated(ids, bound, g, s); }
    else if l.Start? {
      SchedulerFindsTheToken(s.top, l.node);
      StartKeepsGated(ids, s);
    } else if l.Persist? {
      PersistKeepsGated(ids, s, s.pc.node, s.pc.result);
    } else if l.Poll? {
      SchedulerFindsTheToken(s.top, l.node);
      PollKeepsGated(ids, s.history, s.top, l.node);
    } else if l.Restart? {
      RestartKeepsGated(ids, s.history, s.top);
    } else {
      hide Apply, Enabled;
      StepLeavesTop(g, s, l);
      StepIsQuiet(g, s, l);
      QuietHistory(s, Apply(g, s, l));
      OutcomeKeepsGated(ids, s.history, Apply(g, s, l).history, s.top);
    }
  }

  lemma CompiledRowHasNoBudget(ids: seq<string>, bound: nat, s: State, n: Id)
    requires Sound(CompiledGraph(ids, bound), s) && n in s.top.rows
    ensures s.top.rows[n].node.budget.None?
    ensures !IsContainer(s.top.rows[n].node.kind) && !s.top.rows[n].node.kind.Join?
  {
    hide CompiledGraph;
    SoundHasRows(CompiledGraph(ids, bound), s);
    NodesOfCompiled(ids, bound, s.top.rows[n].node);
  }

  lemma CompiledIsNeverPooling(ids: seq<string>, bound: nat, g: Plan, s: State)
    requires IsCompiledRun(ids, bound, g, s)
    ensures !s.pc.Pooling?
    ensures s.pc.Calling? ==> s.pc.node in s.top.rows && !s.top.rows[s.pc.node].node.kind.Join? && !IsContainer(s.top.rows[s.pc.node].node.kind)
  {
    hide CompiledGraph, Fits, SoundBranches, SoundThreads, ValidPlan, SoundBarrier, OneToken, KeepsRows;
    if s.pc.Calling? || s.pc.Pooling? { CompiledRowHasNoBudget(ids, bound, s, s.pc.node); }
  }

  lemma CompiledHasNoPool(ids: seq<string>, bound: nat, g: Plan, s: State, l: Label)
    requires IsCompiledRun(ids, bound, g, s) && Enabled(g, s, l)
    ensures !l.OpenPool? && !ClosesPool(l) && !l.AnswerJoin? && !s.pc.Pooling?
  {
    hide CompiledGraph, Sound, Fits, IsAdmission, IsScheduled, ValidRoute, IsUnresolved, IsRefused, UnsettledOf;
    CompiledIsNeverPooling(ids, bound, g, s);
    if l.OpenPool? { CompiledRowHasNoBudget(ids, bound, s, l.node); }
  }

  // ---- success ----

  /** A succeeded run has come to rest at `deliver`, which succeeded. */
  ghost predicate SuccessIsDelivered(s: State) {
    s.ending.Some? && s.ending.value.status == RunSucceeded ==>
      && IsOver(s) && IsResting(s.pc) && s.top.at == Some("deliver") && IsDelivered(s.top)
  }

  predicate IsDelivered(w: Walk) {
    AtRow(w) && Current(w).state == Settled(Succeeded) && Current(w).result.Some?
    && !Current(w).result.value.Awaiting? && OutcomeOf(Current(w).result.value) == Succeeded
  }

  predicate IsResting(pc: Pc) { pc.Top? || pc.Idle? || pc.Dead? }

  /** Only `deliver` can succeed without an edge to follow. */
  lemma SucceededHasEdge(ids: seq<string>, bound: nat, counts: map<(Id, Id), nat>, n: Node, r: Result, attempt: nat)
    requires n in CompiledGraph(ids, bound).nodes && Fits(n.kind, r) && !r.Awaiting? && OutcomeOf(r) == Succeeded
    requires Select(CompiledGraph(ids, bound).edges, counts, n.id, r, attempt).None?
    ensures n.id == "deliver"
  {
    hide CompiledGraph, Select;
    SelectIsFirst(CompiledGraph(ids, bound).edges, counts, n.id, r, attempt);
    NodesOfCompiled(ids, bound, n);
    if n.id != "deliver" {
      var e := WayOn(ids, n);
      WayOnIsAnEdge(ids, bound, n);
      EdgesOfCompiled(ids, bound, e);
      WhenMatches(e.from, e.to, "succeeded", None, r, attempt);
      WhenMatches(e.from, e.to, "passed", None, r, attempt);
    }
  }

  /** The edge a succeeded node takes. */
  ghost function WayOn(ids: seq<string>, n: Node): Edge {
    if n.id == "inspect" then Always("inspect", "implement")
    else if IsWriter(n.id) then Always(n.id, Gate(ids, 0))
    else if n.id == "review" then When("review", "deliver", "succeeded", None)
    else if k: nat :| k < |ids| && n == VerifyNode(ids[k]) then When(n.id, Gate(ids, k + 1), "passed", None)
    else Always(n.id, n.id)
  }

  lemma WayOnIsAnEdge(ids: seq<string>, bound: nat, n: Node)
    requires n in CompiledGraph(ids, bound).nodes && n.id != "deliver"
    ensures IsCompiledEdge(ids, bound, WayOn(ids, n)) && WayOn(ids, n).from == n.id
    ensures WayOn(ids, n).condition.None? || (n.kind.Agent? && WayOn(ids, n) == When(n.id, "deliver", "succeeded", None))
      || (n.kind.Verifier? && WayOn(ids, n) == When(n.id, WayOn(ids, n).to, "passed", None))
    ensures WayOn(ids, n).maxIterations.None?
  {
    hide CompiledGraph;
    FixedIdsDiffer();
    NodesOfCompiled(ids, bound, n);
    if k: nat :| k < |ids| && n == VerifyNode(ids[k]) {
      VerifyIdIsNotFixed(ids[k]);
      var j: nat :| j < |ids| && n == VerifyNode(ids[j]) && WayOn(ids, n) == When(n.id, Gate(ids, j + 1), "passed", None);
      assert IsLoopEdge(ids, bound, j, WayOn(ids, n));
    }
  }

  lemma RouteSucceedsAtDelivery(ids: seq<string>, bound: nat, g: Plan, s: State)
    requires IsCompiledRun(ids, bound, g, s) && Enabled(g, s, Route) && SuccessIsDelivered(s)
    ensures SuccessIsDelivered(Apply(g, s, Route))
  {
    hide Sound, CompiledGraph, ValidRoute, ChooseRoute, HonorBarrier, Advance, IsDelivered;
    RouteKeepsSound(g, s);
    ChosenRouteIsAllowed(g, s, s.pc.node);
    EndingsOfHonor(s);
    ChosenSuccessIsDelivery(ids, bound, g, s, s);
  }

  /** A route that ends the run as succeeded, with or without a late control, stands at `deliver`. */
  lemma ChosenSuccessIsDelivery(ids: seq<string>, bound: nat, g: Plan, s: State, t: State)
    requires IsCompiledRun(ids, bound, g, s) && s.pc.Routing? && (t == s || t == s.(barrier := NoBarrier))
    ensures ValidRoute(g, t, s.pc.node)
    ensures var c := ChooseRoute(g, t, s.pc.node);
      c.Ends? && c.ending.status == RunSucceeded ==> s.top.at == Some("deliver") && IsDelivered(s.top)
  {
    hide Sound, CompiledGraph, ValidRoute, Select, Fits, IsRepair;
    RouteKeepsSound(g, s);
    SameRoute(g, s, s.pc.node);
    DoneRow(g, s);
    var c, r := ChooseRoute(g, t, s.pc.node), Current(s.top).result.value;
    if c.Ends? && c.ending.status == RunSucceeded {
      SucceededHasEdge(ids, bound, s.top.counts, Current(s.top).node, r, Current(s.top).attempts);
    }
  }

  lemma LateRouteSucceedsAtDelivery(ids: seq<string>, bound: nat, g: Plan, s: State, exhausted: bool)
    requires IsCompiledRun(ids, bound, g, s) && Enabled(g, s, LateRoute(exhausted)) && SuccessIsDelivered(s)
    ensures SuccessIsDelivered(Apply(g, s, LateRoute(exhausted)))
  {
    hide Sound, CompiledGraph, ValidRoute, ChooseRoute, IsDelivered, Select;
    ChosenSuccessIsDelivery(ids, bound, g, s, s.(barrier := NoBarrier));
  }

  /** A run that is over and between turns moves no more, until it is restarted. */
  lemma RestingStaysResting(g: Plan, s: State, l: Label)
    requires Sound(g, s) && Enabled(g, s, l) && !l.Restart? && !l.OpenPool? && IsOver(s) && IsResting(s.pc) && s.branches == map[]
    ensures var s' := Apply(g, s, l); s'.top == s.top && IsOver(s') && IsResting(s'.pc)
  {
    hide Sound, GoodStep, Fits, CancelBranches, IsScheduled, IsUnresolved, IsUncertain, FinishRun;
    TokenRow(g, s);
    NoBranchMoves(g, s, l);
    StepIsGood(g, s, l);
    GoodStepIsOver(s, Apply(g, s, l));
    StepLeavesTop(g, s, l);
    RestingPlace(g, s, l);
  }

  lemma GoodStepIsOver(s: State, s': State)
    requires GoodStep(s, s') && IsOver(s) && IsResting(s.pc)
    ensures IsOver(s')
  {
  }

  lemma RestingPlace(g: Plan, s: State, l: Label)
    requires SoundBarrier(s.status, s.barrier) && Enabled(g, s, l) && !l.Restart? && !IsBranchMove(l) && !l.OpenPool? && IsOver(s) && IsResting(s.pc)
    ensures IsResting(Apply(g, s, l).pc) && !IsWalking(l)
  {
    hide Fits, CancelBranches, IsScheduled, IsUnresolved, IsUncertain, ChooseRoute, AfterPool;
  }

  lemma StepSucceedsAtDelivery(ids: seq<string>, bound: nat, g: Plan, s: State, l: Label)
    requires IsCompiledRun(ids, bound, g, s) && Enabled(g, s, l) && SuccessIsDelivered(s)
    ensures SuccessIsDelivered(Apply(g, s, l))
  {
    hide Sound, CompiledGraph, Apply, Enabled, IsDelivered;
    if l.Route? { RouteSucceedsAtDelivery(ids, bound, g, s); }
    else if l.LateRoute? { LateRouteSucceedsAtDelivery(ids, bound, g, s, l.exhausted); }
    else if l.Restart? { RestartHasNoEnding(g, s, l.budget); }
    else {
      OnlyRoutesSucceed(g, s, l);
      if s.ending.Some? && s.ending.value.status == RunSucceeded {
        CompiledHasNoPool(ids, bound, g, s, l);
        RestingStaysResting(g, s, l);
      }
    }
  }

  lemma RestartHasNoEnding(g: Plan, s: State, budget: Budget)
    ensures Enabled(g, s, Restart(budget)) && Apply(g, s, Restart(budget)).ending == None
  {
  }

  ghost predicate GoodDelivery(ids: seq<string>, bound: nat, g: Plan, s: State) {
    && IsCompiledRun(ids, bound, g, s) && Gated(ids, s.history, s.top) && SuccessIsDelivered(s)
  }

  lemma {:induction false} RunKeepsDelivery(ids: seq<string>, bound: nat, g: Plan, s: State, ls: seq<Label>)
    requires GoodDelivery(ids, bound, g, s) && IsRun(g, s, ls)
    ensures GoodDelivery(ids, bound, g, Exec(g, s, ls))
    decreases |ls|
  {
    hide Sound, Gated, SuccessIsDelivered, CompiledGraph, Enabled, Apply;
    if ls != [] {
      StepKeepsGated(ids, bound, g, s, ls[0]);
      StepSucceedsAtDelivery(ids, bound, g, s, ls[0]);
      StepKeepsSound(g, s, ls[0]);
      StepKeepsSlots(g, s, ls[0]);
      RunKeepsDelivery(ids, bound, g, Apply(g, s, ls[0]), ls[1..]);
    }
  }

  lemma CompiledHasNoSlots(ids: seq<string>, bound: nat)
    ensures Slots(CompiledGraph(ids, bound)) == {}
  {
    var g := CompiledGraph(ids, bound);
    forall n | n in g.nodes ensures BranchesOf(n.kind) == [] { NodesOfCompiled(ids, bound, n); }
  }

  lemma ReachableIsDelivery(ids: seq<string>, bound: nat, budget: Budget, s: State)
    requires IsDistinct(ids) && bound >= 1 && Reachable(CompiledGraph(ids, bound), budget, s)
    ensures GoodDelivery(ids, bound, CompiledGraph(ids, bound), s)
  {
    hide Sound, Gated, SuccessIsDelivered, Enabled, Apply, IsRun, Exec, CompiledGraph, ValidGraph;
    var g := CompiledGraph(ids, bound);
    CompiledIsValid(ids, bound);
    var ls :| IsRun(g, Init(g, budget), ls) && Exec(g, Init(g, budget), ls) == s;
    InitIsSound(g, budget);
    CompiledHasNoSlots(ids, bound);
    InitIsGated(ids, bound, budget);
    RunKeepsDelivery(ids, bound, g, Init(g, budget), ls);
  }

  lemma InitIsGated(ids: seq<string>, bound: nat, budget: Budget)
    requires ValidGraph(CompiledGraph(ids, bound))
    ensures var s := Init(CompiledGraph(ids, bound), budget);
      Gated(ids, s.history, s.top) && SuccessIsDelivered(s) && s.top.at == Some("inspect")
  {
    hide ValidGraph, OrderOf, PlanOf, Verified;
    assert CompiledGraph(ids, bound).nodes[0] == AgentNode("inspect");
    StagesOfFixed(ids);
    NothingIsVerified(ids, []);
  }

  // ---- main results ----

  /** Every recorded start of `deliver` comes after all marks since the last write. */
  lemma DeliveryIsGated(ids: seq<string>, bound: nat, budget: Budget, s: State, i: nat)
    requires IsDistinct(ids) && bound >= 1 && Reachable(CompiledGraph(ids, bound), budget, s)
    requires i < |s.history| && IsDelivery(s.history[i])
    ensures Verified(ids, s.history[..i], AllMarks(ids))
  {
    hide Reachable, CompiledGraph, Sound, Verified, SuccessIsDelivered;
    ReachableIsDelivery(ids, bound, budget, s);
  }

  /**
   A run ends as succeeded only at `deliver`: the last attempt that began is one of `deliver`, it
   succeeded, and its row still holds that result. So nothing was written after the verification
   that the delivery gate demands of that attempt.
   */
  lemma SuccessMeansDelivered(ids: seq<string>, bound: nat, budget: Budget, s: State)
    requires IsDistinct(ids) && bound >= 1 && Reachable(CompiledGraph(ids, bound), budget, s)
    requires s.ending.Some? && s.ending.value.status == RunSucceeded
    ensures s.top.at == Some("deliver") && IsDelivered(s.top)
    ensures IsLastAnswer(s.history, "deliver", Current(s.top).result.value)
  {
    hide Reachable, CompiledGraph, Sound, IsLastAnswer, Verified, DeliveriesGated, Promised;
    ReachableIsDelivery(ids, bound, budget, s);
  }
}
