/**
 The run-start ledger (delivery/coordinator.py): a claim row before a prepared run is executed,
 a completed row after it. A prepared run is executed at most once across all idempotency keys
 and crashes; a completed claim replays its stored answer, an unfinished one is refused.
 */
module StartClaims {
  import opened Options

  datatype Planned = Prepared | StartClaimed | Started

  datatype Result = Result(runId: string, status: string, revision: nat, key: string)

  datatype Request = Request(runId: string, fingerprint: string, result: Option<Result>)

  datatype Refusal = Collision | OutcomeUnknown | NotFound | NotPrepared | RunFails | BadRequest | Unknown | Drift

  datatype Answer = Gives(result: Result) | Refuses(why: Refusal) | Died

  /**
   What one call meets: whether the frozen contract, lock and graph are there and unchanged, how
   the run ends, if it does, and whether the process survives.
   */
  datatype Outside = Outside(verifies: bool, finishes: Option<(string, nat)>, livesToRun: bool, livesToComplete: bool)

  // ---- what the two tables have to do with each other ----

  ghost predicate IsFor(requests: map<string, Request>, key: string, run: string, completed: bool) {
    key in requests && requests[key].runId == run && requests[key].result.Some? == completed
  }

  /** The planned status of a run is what its requests say: none, one executing, or one completed. */
  ghost predicate Tells(requests: map<string, Request>, run: string, status: Planned) {
    match status
    case Prepared => forall key :: !IsFor(requests, key, run, true) && !IsFor(requests, key, run, false)
    case StartClaimed => exists key :: IsFor(requests, key, run, false)
    case Started => exists key :: IsFor(requests, key, run, true)
  }

  ghost predicate OnePerRun(requests: map<string, Request>) {
    forall a, b | a in requests && b in requests && requests[a].runId == requests[b].runId :: a == b
  }

  ghost predicate Consistent(requests: map<string, Request>, planned: map<string, Planned>) {
    && (forall key | key in requests :: requests[key].runId in planned)
    && OnePerRun(requests)
    && (forall run | run in planned :: Tells(requests, run, planned[run]))
  }

  /** So the status of a run is an exact summary of its requests. */
  lemma StatusIsExact(requests: map<string, Request>, planned: map<string, Planned>, run: string)
    requires Consistent(requests, planned) && run in planned
    ensures planned[run] == StartClaimed <==> exists key :: IsFor(requests, key, run, false)
    ensures planned[run] == Started <==> exists key :: IsFor(requests, key, run, true)
    ensures forall a, b | IsFor(requests, a, run, true) || IsFor(requests, a, run, false) ::
      IsFor(requests, b, run, true) || IsFor(requests, b, run, false) ==> a == b
  {
    assert Tells(requests, run, planned[run]);
    forall a, b | IsFor(requests, a, run, true) && b in requests && requests[b].runId == run ensures a == b {}
  }

  lemma OtherRunStillTells(requests: map<string, Request>, key: string, row: Request, run: string, status: Planned)
    requires Tells(requests, run, status) && row.runId != run && (key in requests ==> requests[key].runId != run)
    ensures Tells(requests[key := row], run, status)
  {
    var more := requests[key := row];
    forall k, c ensures IsFor(more, k, run, c) <==> IsFor(requests, k, run, c) {}
    match status
    case Prepared =>
    case StartClaimed =>
      var k :| IsFor(requests, k, run, false);
      assert IsFor(more, k, run, false);
    case Started =>
      var k :| IsFor(requests, k, run, true);
      assert IsFor(more, k, run, true);
  }

  lemma ClaimKeepsConsistent(requests: map<string, Request>, planned: map<string, Planned>, key: string, row: Request)
    requires Consistent(requests, planned) && key !in requests && row.result.None?
    requires row.runId in planned && planned[row.runId] == Prepared
    ensures Consistent(requests[key := row], planned[row.runId := StartClaimed])
  {
    var more, status := requests[key := row], planned[row.runId := StartClaimed];
    assert Tells(requests, row.runId, Prepared);
    forall a | a in requests ensures requests[a].runId != row.runId {
      assert !IsFor(requests, a, row.runId, true) && !IsFor(requests, a, row.runId, false);
    }
    assert IsFor(more, key, row.runId, false);
    forall run | run in status ensures Tells(more, run, status[run]) {
      if run != row.runId { OtherRunStillTells(requests, key, row, run, planned[run]); }
    }
  }

  lemma CompletionKeepsConsistent(requests: map<string, Request>, planned: map<string, Planned>, key: string, result: Result)
    requires Consistent(requests, planned) && key in requests
    ensures Consistent(requests[key := requests[key].(result := Some(result))], planned[requests[key].runId := Started])
  {
    var row := requests[key].(result := Some(result));
    var more, status := requests[key := row], planned[row.runId := Started];
    assert IsFor(more, key, row.runId, true);
    forall run | run in status ensures Tells(more, run, status[run]) {
      if run != row.runId { OtherRunStillTells(requests, key, row, run, planned[run]); }
    }
  }

  /** Why a run that is not prepared cannot be claimed under a new key. */
  function Unplanned(planned: map<string, Planned>, run: string): Refusal {
    if run !in planned then NotFound else if planned[run] == StartClaimed then OutcomeUnknown else NotPrepared
  }

  /** What the ledger says to a key that it knows. */
  function Replayed(row: Request, run: string, fingerprint: string): Answer {
    if row.fingerprint != fingerprint || row.runId != run then Refuses(Collision)
    else if row.result.Some? then Gives(row.result.value)
    else Refuses(OutcomeUnknown)
  }

  /** What the one execution of a run gives: its result, if it ends and the process lives to record it. */
  function Answered(run: string, key: string, outside: Outside): Answer {
    if !outside.livesToRun then Died
    else if outside.finishes.None? then Refuses(RunFails)
    else if !outside.livesToComplete then Died
    else Gives(Result(run, outside.finishes.value.0, outside.finishes.value.1, key))
  }

  // ---- the ledger ----

  class AutonomousDeliveryCoordinator {
    var requests: map<string, Request>
    var planned: map<string, Planned>
    /** The runs that were handed to the runtime. */
    ghost var executed: seq<string>

    constructor ()
      ensures Valid() && requests == map[] && planned == map[] && executed == []
    {
      requests, planned, executed := map[], map[], [];
    }

    /** A run is prepared, once; preparing it again leaves its status alone. */
    method Prepare(run: string)
      requires Valid()
      modifies this`planned
      ensures Valid() && planned == if run in old(planned) then old(planned) else old(planned)[run := Prepared]
    {
      if run !in planned { planned := planned[run := Prepared]; }
    }

    /** The tables agree, no run was executed twice, and none that is still prepared. */
    ghost predicate Valid()
      reads this
    {
      && Consistent(requests, planned)
      && (forall i, j | 0 <= i < j < |executed| :: executed[i] != executed[j])
      && (forall run | run in executed :: run in planned && planned[run] != Prepared)
    }

    /** `_claim`; None is the right to go on. */
    method Claim(run: string, key: string, fingerprint: string) returns (replay: Option<Answer>)
      requires Valid()
      modifies this`requests, this`planned
      ensures Valid()
      ensures replay.None? <==> key !in old(requests) && run in old(planned) && old(planned)[run] == Prepared
      ensures if replay.None?
        then requests == old(requests)[key := Request(run, fingerprint, None)] && planned == old(planned)[run := StartClaimed]
        else requests == old(requests) && planned == old(planned)
      ensures replay.None? ==> run !in executed
      ensures replay.Some? && key in requests ==>
        replay.value == Replayed(requests[key], run, fingerprint)
      ensures replay.Some? && key !in requests ==> replay.value == Refuses(Unplanned(planned, run))
    {
      hide Consistent;
      if key in requests {
        var row := requests[key];
        if row.fingerprint != fingerprint || row.runId != run { return Some(Refuses(Collision)); }
        if row.result.Some? { return Some(Gives(row.result.value)); }
        return Some(Refuses(OutcomeUnknown));
      }
      if run !in planned { return Some(Refuses(NotFound)); }
      if planned[run] == StartClaimed { return Some(Refuses(OutcomeUnknown)); }
      if planned[run] != Prepared { return Some(Refuses(NotPrepared)); }
      ClaimKeepsConsistent(requests, planned, key, Request(run, fingerprint, None));
      requests := requests[key := Request(run, fingerprint, None)];
      planned := planned[run := StartClaimed];
      return None;
    }

    /** The request is complete, and its planned run is there and verifies. */
    predicate IsAdmitted(run: string, key: string, outside: Outside)
      reads this`planned
    {
      key != "" && run in planned && outside.verifies
    }

    /** The key is new and the run is still prepared. */
    predicate IsFree(run: string, key: string)
      reads this`requests, this`planned
    {
      key !in requests && run in planned && planned[run] == Prepared
    }

    /** `_complete`. */
    method Complete(result: Result)
      requires Valid() && result.key in requests && requests[result.key].runId == result.runId
      requires requests[result.key].result.None?
      modifies this`requests, this`planned
      ensures Valid()
      ensures requests == old(requests)[result.key := old(requests)[result.key].(result := Some(result))]
      ensures planned == old(planned)[result.runId := Started]
    {
      hide Consistent;
      CompletionKeepsConsistent(requests, planned, result.key, result);
      requests := requests[result.key := requests[result.key].(result := Some(result))];
      planned := planned[result.runId := Started];
    }

    /** `run`: claim, execute, complete. An exception leaves the claim executing. */
    method Run(run: string, key: string, fingerprint: string, outside: Outside) returns (answer: Answer)
      requires Valid()
      modifies this
      ensures Valid()
      ensures executed == old(executed) + if old(IsAdmitted(run, key, outside)) && old(IsFree(run, key)) && outside.livesToRun then [run] else []
      ensures forall k | k in old(requests) :: k in requests && requests[k] == old(requests)[k]
      ensures answer.Gives? ==> key in requests && requests[key] == Request(run, fingerprint, Some(answer.result))
      ensures !old(IsAdmitted(run, key, outside)) ==>
        && requests == old(requests) && planned == old(planned)
        && answer == Refuses(if key == "" then BadRequest else if run !in old(planned) then Unknown else Drift)
      ensures old(IsAdmitted(run, key, outside)) && old(IsFree(run, key)) ==>
        && answer == Answered(run, key, outside)
        && requests == old(requests)[key := Request(run, fingerprint, if answer.Gives? then Some(answer.result) else None)]
        && planned == old(planned)[run := if answer.Gives? then Started else StartClaimed]
      ensures old(IsAdmitted(run, key, outside)) && !old(IsFree(run, key)) ==>
        && requests == old(requests) && planned == old(planned)
        && answer == if key in old(requests) then Replayed(old(requests)[key], run, fingerprint) else Refuses(Unplanned(old(planned), run))
    {
      hide Consistent;
      if key == "" { return Refuses(BadRequest); }
      if run !in planned { return Refuses(Unknown); }
      if !outside.verifies { return Refuses(Drift); }
      var replay := Claim(run, key, fingerprint);
      if replay.Some? { return replay.value; }
      if !outside.livesToRun { return Died; }
      executed := executed + [run];
      if outside.finishes.None? { return Refuses(RunFails); }
      if !outside.livesToComplete { return Died; }
      var result := Result(run, outside.finishes.value.0, outside.finishes.value.1, key);
      Complete(result);
      return Gives(result);
    }
  }
}
