/**
 Container starts and slots (verifier/container.py). An execution row precedes every start, so
 a key starts at most one container; between calls the free slots and the active handles make
 up the concurrency limit, whatever the adapter does and wherever the process dies.

 The limit is also checked against the rows, and there it can be used up for good: a start that
 is refused after its row was written, or cut off by a crash, leaves a row that counts as active
 and that no call changes any more.
 */
module Containers {
  import opened Options
  import opened Sets

  datatype RowState = Starting | RunningRow | Errored | UncertainRow | Completed | Residual | BarrierRow

  datatype Verdict = Passed | FailedV | ErroredV | CancelledV

  datatype Row = Row(owner: string, state: RowState, handle: Option<string>, result: Option<Verdict>)

  datatype Request = Request(key: string, owner: string)

  datatype Start = StartedAs(handle: string) | StartUncertain | StartRefused | Violation | StartFails

  /** Everything one call of `execute` meets outside, and how long the process lives. */
  datatype Outside = Outside(
    refused: bool, runAllows: bool, mayStart: bool, stillMayStart: bool, mounts: Option<Start>, start: Start,
    cleaned: bool, diesBeforeStart: bool, diesAfterStart: bool)

  datatype Outcome = Pending(handle: string) | Settled(verdict: Verdict) | Refuses | Raises | Died

  /** What a poll finds; `Breaks` where stopping the container, or storing its artifacts, raises. */
  datatype Inspection = StillRunning | OverLimit | TimedOut | InspectFails | Exited(verdict: Verdict) | Breaks

  /** What a stop does; `Broken` where it does not settle and the cleanup after it raises. */
  datatype Stop = Stopped | Unsettled | Broken

  /** The adapter is asked to start a container. */
  predicate Asks(outside: Outside) { outside.stillMayStart && !outside.diesBeforeStart && outside.mounts.None? }

  /** What becomes of an intent row, and what the caller is told. */
  function Launch(owner: string, outside: Outside, taken: bool): (Row, Outcome) {
    var intent := Row(owner, Starting, None, None);
    var reply := if outside.mounts.Some? then outside.mounts.value else outside.start;
    if outside.diesBeforeStart then (intent, Died)
    else if !outside.stillMayStart then (intent.(state := BarrierRow), Refuses)
    else if outside.diesAfterStart then (intent, Died)
    else if outside.mounts.None? && reply.StartedAs? && !taken then
      (intent.(state := RunningRow, handle := Some(reply.handle)), Pending(reply.handle))
    else if reply.StartRefused? || reply.Violation? then (intent, Refuses)
    else (intent.(state := if reply.StartUncertain? && !outside.cleaned then UncertainRow else Errored,
                  result := Some(ErroredV)), Settled(ErroredV))
  }

  /** The active handles after a start: one more if a container runs, none if the process died. */
  function ActiveAfter(active: set<string>, outcome: Outcome): set<string> {
    match outcome
    case Pending(handle) => active + {handle}
    case Died => {}
    case _ => active
  }

  /** What a poll of an open execution says. */
  function Polled(handle: string, inspection: Inspection, cleaned: bool): Outcome {
    match inspection
    case StillRunning => Pending(handle)
    case Breaks => Raises
    case Exited(verdict) => Settled(if cleaned then verdict else ErroredV)
    case _ => Settled(ErroredV)
  }

  function Ended(row: Row, verdict: Verdict, cleaned: bool): Row {
    Row(row.owner, if cleaned then Completed else Residual, row.handle, Some(verdict))
  }

  // ---- rows that are never settled ----

  predicate IsCountedActive(row: Row) { row.state == Starting || row.state == RunningRow || row.state == UncertainRow }

  /** Counted as active, and without a handle by which it could be polled or cancelled. */
  predicate IsStuck(row: Row) { IsCountedActive(row) && row.handle.None? }

  function Stuck(rows: map<string, Row>): set<string> { set key | key in rows && IsStuck(rows[key]) }

  predicate KeepsStuck(before: map<string, Row>, after: map<string, Row>) {
    forall key | key in before && IsStuck(before[key]) :: key in after && after[key] == before[key]
  }

  lemma StuckRowsAreCounted(rows: map<string, Row>)
    ensures |Stuck(rows)| <= |set key | key in rows && IsCountedActive(rows[key])|
  {
    SubsetIsSmaller(Stuck(rows), set key | key in rows && IsCountedActive(rows[key]));
  }

  /** The starts that leave such a row. */
  lemma StartSticksExactlyWhen(owner: string, outside: Outside, taken: bool)
    ensures IsStuck(Launch(owner, outside, taken).0) <==>
      var reply := if outside.mounts.Some? then outside.mounts.value else outside.start;
      outside.diesBeforeStart
      || (outside.stillMayStart
          && (outside.diesAfterStart || reply.StartRefused? || reply.Violation? || (reply.StartUncertain? && !outside.cleaned)))
  {
  }

  // ---- the rows ----

  /** The UNIQUE columns: owner_id and handle; a key is never empty. */
  ghost predicate IsTable(rows: map<string, Row>) {
    && "" !in rows
    && (forall a, b | a in rows && b in rows && rows[a].handle.Some? && rows[a].handle == rows[b].handle :: a == b)
    && (forall a, b | a in rows && b in rows && rows[a].owner == rows[b].owner :: a == b)
  }

  ghost predicate AreHandlesOf(active: set<string>, rows: map<string, Row>) {
    forall h | h in active :: exists key :: key in rows && rows[key].handle == Some(h)
  }

  /** No key was started twice, and none without a row. */
  ghost predicate StartedOnce(started: seq<string>, keys: set<string>) {
    && (forall i, j | 0 <= i < j < |started| :: started[i] != started[j])
    && (forall key | key in started :: key in keys)
  }

  predicate HasOwner(rows: map<string, Row>, owner: string) { exists key | key in rows :: rows[key].owner == owner }

  predicate HasHandle(rows: map<string, Row>, handle: string) { exists key | key in rows :: rows[key].handle == Some(handle) }

  lemma InsertKeepsTable(rows: map<string, Row>, active: set<string>, key: string, row: Row)
    requires IsTable(rows) && AreHandlesOf(active, rows) && key !in rows && key != "" && !HasOwner(rows, row.owner)
    requires row.handle.Some? ==> !HasHandle(rows, row.handle.value)
    ensures IsTable(rows[key := row]) && AreHandlesOf(active, rows[key := row])
    ensures row.handle.Some? ==>
      row.handle.value !in active && AreHandlesOf(active + {row.handle.value}, rows[key := row])
  {
    var more := rows[key := row];
    forall h | h in active ensures exists k :: k in more && more[k].handle == Some(h) {
      var k :| k in rows && rows[k].handle == Some(h);
      assert k in more && more[k].handle == Some(h);
    }
    if row.handle.Some? { assert key in more && more[key].handle == Some(row.handle.value); }
  }

  lemma ResultKeepsTable(rows: map<string, Row>, active: set<string>, key: string, row: Row)
    requires IsTable(rows) && AreHandlesOf(active, rows) && key in rows
    requires row.owner == rows[key].owner && row.handle == rows[key].handle
    ensures IsTable(rows[key := row]) && AreHandlesOf(active, rows[key := row])
  {
    var more := rows[key := row];
    forall h | h in active ensures exists k :: k in more && more[k].handle == Some(h) {
      var k :| k in rows && rows[k].handle == Some(h);
      assert k in more && more[k].handle == Some(h);
    }
  }

  lemma FewerHandles(rows: map<string, Row>, active: set<string>, fewer: set<string>)
    requires AreHandlesOf(active, rows) && fewer <= active
    ensures AreHandlesOf(fewer, rows)
  {
  }

  lemma StartIsRecorded(started: seq<string>, keys: set<string>, key: string)
    requires StartedOnce(started, keys) && key !in keys
    ensures StartedOnce(started, keys + {key}) && StartedOnce(started + [key], keys + {key})
  {
  }

  // ---- the verifier ----

  class ContainerVerifier {
    const maxConcurrency: nat
    // the semaphore and the set of handles, which die with the process
    var free: nat
    var active: set<string>
    // the container_executions rows
    var rows: map<string, Row>
    /** The keys under which the adapter was asked to start a container. */
    ghost var started: seq<string>

    constructor (maxConcurrency: nat)
      ensures Valid() && this.maxConcurrency == maxConcurrency && rows == map[] && started == []
    {
      this.maxConcurrency := maxConcurrency;
      free, active, rows, started := maxConcurrency, {}, map[], [];
    }

    ghost predicate Valid()
      reads this
    {
      free + |active| == maxConcurrency && IsTable(rows) && AreHandlesOf(active, rows) && StartedOnce(started, rows.Keys)
    }

    /** The process dies and another one opens the same rows. */
    method Die()
      requires Valid()
      modifies this`free, this`active
      ensures Valid() && free == maxConcurrency && active == {}
    {
      free, active := maxConcurrency, {};
    }

    /** `SELECT COUNT(*) ... WHERE state IN ('starting','running','uncertain')`. */
    function ActiveRows(): nat
      reads this`rows
    {
      |set key | key in rows && IsCountedActive(rows[key])|
    }

    /** Nothing stands in the way of an intent row for this key. */
    predicate CanStart(request: Request, outside: Outside)
      reads this
    {
      && request.key != "" && request.key !in rows && !outside.refused && ActiveRows() < maxConcurrency && free > 0
      && outside.runAllows && outside.mayStart && !HasOwner(rows, request.owner)
    }

    /** The adapter has already given this handle away. */
    predicate IsTaken(start: Start)
      reads this`rows
    {
      start.StartedAs? && HasHandle(rows, start.handle)
    }

    /** `execute`. */
    method Execute(request: Request, outside: Outside, inspection: Inspection, cleaned: bool) returns (outcome: Outcome)
      requires Valid()
      modifies this
      ensures Valid()
      ensures started == old(started) + if old(CanStart(request, outside)) && Asks(outside) then [request.key] else []
      ensures old(CanStart(request, outside)) ==>
        var launch := Launch(request.owner, outside, old(IsTaken(outside.start)));
        && rows == old(rows)[request.key := launch.0] && outcome == launch.1
        && active == ActiveAfter(old(active), outcome)
      ensures request.key !in old(rows) && !old(CanStart(request, outside)) ==>
        outcome == Refuses && rows == old(rows) && active == old(active) && free == old(free)
      ensures request.key in old(rows) ==>
        var row := old(rows)[request.key];
        && outcome == (if row.result.Some? then Settled(row.result.value)
                       else if row.handle.Some? then Polled(row.handle.value, inspection, cleaned) else Refuses)
        && (row.result.Some? || row.handle.None? ==> rows == old(rows))
      ensures KeepsStuck(old(rows), rows)
      ensures request.key !in old(rows) && |Stuck(old(rows))| >= maxConcurrency ==> outcome == Refuses && started == old(started)
    {
      hide IsTable, AreHandlesOf, StartedOnce;
      KeysAreNotEmpty(rows);
      StuckRowsAreCounted(rows);
      if request.key == "" { return Refuses; }
      if request.key in rows {
        var row := rows[request.key];
        if row.result.Some? { return Settled(row.result.value); }
        if row.handle.Some? {
          outcome := Poll(row.handle.value, inspection, cleaned);
          return;
        }
        return Refuses;
      }
      if outside.refused { return Refuses; }
      if ActiveRows() >= maxConcurrency { return Refuses; }
      if free == 0 { return Refuses; }
      free := free - 1;
      outcome := StartContainer(request, outside);
    }

    /** The part of `execute` that holds a slot. */
    method StartContainer(request: Request, outside: Outside) returns (outcome: Outcome)
      requires free + 1 + |active| == maxConcurrency && request.key !in rows && request.key != ""
      requires IsTable(rows) && AreHandlesOf(active, rows) && StartedOnce(started, rows.Keys)
      modifies this
      ensures Valid()
      ensures if outside.runAllows && outside.mayStart && !HasOwner(old(rows), request.owner)
              then var launch := Launch(request.owner, outside, old(IsTaken(outside.start)));
                && rows == old(rows)[request.key := launch.0] && outcome == launch.1
                && started == old(started) + (if Asks(outside) then [request.key] else [])
                && active == ActiveAfter(old(active), outcome)
              else outcome == Refuses && rows == old(rows) && started == old(started) && active == old(active) && free == old(free) + 1
    {
      hide IsTable, AreHandlesOf, StartedOnce, HasOwner, HasHandle;
      if !outside.runAllows || !outside.mayStart || HasOwner(rows, request.owner) {
        free := free + 1;
        return Refuses;
      }
      var intent := Row(request.owner, Starting, None, None);
      StartIsRecorded(started, rows.Keys, request.key);
      if outside.diesBeforeStart {
        Insert(request.key, intent, Died);
        return Died;
      }
      if !outside.stillMayStart {
        Insert(request.key, intent.(state := BarrierRow), Refuses);
        return Refuses;
      }
      outcome := AskAdapter(request.key, intent, outside);
    }

    /** The row is written, and the slot kept for a running container, given back, or lost with the process. */
    method Insert(key: string, row: Row, outcome: Outcome)
      requires free + 1 + |active| == maxConcurrency && key !in rows && key != "" && !HasOwner(rows, row.owner)
      requires IsTable(rows) && AreHandlesOf(active, rows) && StartedOnce(started, rows.Keys + {key})
      requires if outcome.Pending? then row.handle == Some(outcome.handle) && !HasHandle(rows, outcome.handle) else row.handle.None?
      modifies this`rows, this`free, this`active
      ensures Valid() && rows == old(rows)[key := row] && active == ActiveAfter(old(active), outcome)
    {
      hide IsTable, AreHandlesOf, StartedOnce, HasOwner, HasHandle;
      InsertKeepsTable(rows, active, key, row);
      rows := rows[key := row];
      assert rows.Keys == old(rows).Keys + {key};
      match outcome {
        case Pending(handle) => active := active + {handle};
        case Died =>
          NoHandles(rows);
          free, active := maxConcurrency, {};
        case _ => free := free + 1;
      }
    }

    /** `_resolve_mounts`, `adapter.start`, and what is made of their answers. */
    method AskAdapter(key: string, intent: Row, outside: Outside) returns (outcome: Outcome)
      requires free + 1 + |active| == maxConcurrency && key !in rows && key != ""
      requires intent == Row(intent.owner, Starting, None, None) && outside.stillMayStart && !outside.diesBeforeStart
      requires IsTable(rows) && AreHandlesOf(active, rows) && !HasOwner(rows, intent.owner) && StartedOnce(started, rows.Keys)
      modifies this
      ensures Valid()
      ensures var launch := Launch(intent.owner, outside, old(IsTaken(outside.start)));
        && rows == old(rows)[key := launch.0] && outcome == launch.1
        && started == old(started) + (if Asks(outside) then [key] else [])
        && active == ActiveAfter(old(active), outcome)
    {
      hide IsTable, AreHandlesOf, StartedOnce, HasOwner, HasHandle;
      var row := intent;
      var reply := if outside.mounts.Some? then outside.mounts.value else outside.start;
      StartIsRecorded(started, rows.Keys, key);
      if outside.mounts.None? { started := started + [key]; }
      outcome := Refuses;
      if outside.diesAfterStart {
        outcome := Died;
      } else if outside.mounts.None? && reply.StartedAs? && !HasHandle(rows, reply.handle) {
        row := intent.(state := RunningRow, handle := Some(reply.handle));
        outcome := Pending(reply.handle);
      } else if !reply.StartRefused? && !reply.Violation? {
        var state := if reply.StartUncertain? && !outside.cleaned then UncertainRow else Errored;
        row := intent.(state := state, result := Some(ErroredV));
        outcome := Settled(ErroredV);
      }
      assert (row, outcome) == Launch(intent.owner, outside, IsTaken(outside.start));
      Insert(key, row, outcome);
    }

    /** `_by_handle`. */
    method ByHandle(handle: string) returns (key: Option<string>)
      ensures key.Some? ==> key.value in rows && rows[key.value].handle == Some(handle)
      ensures key.None? ==> !HasHandle(rows, handle)
    {
      if HasHandle(rows, handle) {
        var k :| k in rows && rows[k].handle == Some(handle);
        return Some(k);
      }
      return None;
    }

    /** `poll`. */
    method Poll(handle: string, inspection: Inspection, cleaned: bool) returns (outcome: Outcome)
      requires Valid()
      modifies this
      ensures Valid() && started == old(started)
      ensures !HasHandle(old(rows), handle) ==> outcome == Refuses && rows == old(rows)
      ensures forall key | key in old(rows) && old(rows)[key].handle == Some(handle) ::
        var row := old(rows)[key];
        if row.result.Some? then outcome == Settled(row.result.value) && rows == old(rows) && active == old(active)
        else
          && outcome == Polled(handle, inspection, cleaned)
          && (if outcome.Settled?
              then rows == old(rows)[key := Ended(row, outcome.verdict, cleaned)] && active == old(active) - {handle}
              else rows == old(rows) && active == old(active))
    {
      hide IsTable, AreHandlesOf, StartedOnce;
      var key := ByHandle(handle);
      if key.None? { return Refuses; }
      HandleIsUnique(rows, key.value, handle);
      var row := rows[key.value];
      if row.result.Some? { return Settled(row.result.value); }
      match inspection {
        case StillRunning => return Pending(handle);
        case Breaks => return Raises;
        case Exited(verdict) => outcome := Finish(key.value, verdict, cleaned);
        case _ => outcome := Finish(key.value, ErroredV, cleaned);
      }
    }

    /** `cancel`; a stop that does not settle leaves a residual effect, which is an error. */
    method Cancel(handle: string, stop: Stop, cleaned: bool) returns (outcome: Outcome)
      requires Valid()
      modifies this
      ensures Valid() && started == old(started)
      ensures !HasHandle(old(rows), handle) ==> outcome == Refuses && rows == old(rows)
      ensures forall key | key in old(rows) && old(rows)[key].handle == Some(handle) ::
        var row := old(rows)[key];
        if row.result.Some? then outcome == Settled(row.result.value) && rows == old(rows) && active == old(active)
        else if stop.Broken? then outcome == Raises && rows == old(rows) && active == old(active)
        else
          && outcome == Settled(if stop.Stopped? && cleaned then CancelledV else ErroredV)
          && rows == old(rows)[key := Ended(row, outcome.verdict, cleaned)] && active == old(active) - {handle}
    {
      hide IsTable, AreHandlesOf, StartedOnce;
      var key := ByHandle(handle);
      if key.None? { return Refuses; }
      HandleIsUnique(rows, key.value, handle);
      var row := rows[key.value];
      if row.result.Some? { return Settled(row.result.value); }
      if stop.Broken? { return Raises; }
      outcome := Finish(key.value, if stop.Stopped? then CancelledV else ErroredV, cleaned);
    }

    /** `_finish`: the result is written once, then the handle's slot is given back. */
    method Finish(key: string, verdict: Verdict, cleaned: bool) returns (outcome: Outcome)
      requires Valid() && key in rows && rows[key].result.None? && rows[key].handle.Some?
      modifies this
      ensures Valid() && started == old(started)
      ensures outcome == Settled(if cleaned then verdict else ErroredV)
      ensures rows == old(rows)[key := Ended(old(rows)[key], outcome.verdict, cleaned)]
      ensures active == old(active) - {rows[key].handle.value}
      ensures free == if rows[key].handle.value in old(active) then old(free) + 1 else old(free)
    {
      hide IsTable, AreHandlesOf, StartedOnce;
      var final := if cleaned then verdict else ErroredV;
      var row := rows[key];
      var finished := Row(row.owner, if cleaned then Completed else Residual, row.handle, Some(final));
      ResultKeepsTable(rows, active, key, finished);
      rows := rows[key := finished];
      assert rows.Keys == old(rows).Keys;
      ReleaseHandle(row.handle.value);
      return Settled(final);
    }

    /** `_release_handle`: a slot goes back once per active handle. */
    method ReleaseHandle(handle: string)
      requires Valid()
      modifies this`free, this`active
      ensures Valid() && active == old(active) - {handle}
      ensures free == if handle in old(active) then old(free) + 1 else old(free)
    {
      hide IsTable, AreHandlesOf, StartedOnce;
      if handle in active {
        FewerHandles(rows, active, active - {handle});
        active := active - {handle};
        free := free + 1;
      }
    }
  }

  /** With every container ended, a key that nothing else refuses starts if and only if fewer rows than the limit are stuck. */
  lemma NewKeyStartsExactlyWhen(verifier: ContainerVerifier, request: Request, outside: Outside)
    requires verifier.Valid() && verifier.active == {}
    requires forall key | key in verifier.rows && verifier.rows[key].handle.Some? :: !IsCountedActive(verifier.rows[key])
    requires request.key != "" && request.key !in verifier.rows && !outside.refused
    requires outside.runAllows && outside.mayStart && !HasOwner(verifier.rows, request.owner)
    ensures verifier.CanStart(request, outside) <==> |Stuck(verifier.rows)| < verifier.maxConcurrency
  {
    hide IsTable, AreHandlesOf, StartedOnce, HasOwner;
    assert Stuck(verifier.rows) == set key | key in verifier.rows && IsCountedActive(verifier.rows[key]);
  }

  lemma HandleIsUnique(rows: map<string, Row>, key: string, handle: string)
    requires IsTable(rows) && key in rows && rows[key].handle == Some(handle)
    ensures forall other | other in rows && rows[other].handle == Some(handle) :: other == key
  {
  }

  lemma KeysAreNotEmpty(rows: map<string, Row>)
    requires IsTable(rows)
    ensures "" !in rows
  {
  }

  lemma NoHandles(rows: map<string, Row>)
    ensures AreHandlesOf({}, rows)
  {
  }
}
