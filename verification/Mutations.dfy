/**
 Replay of IPC mutations (service/server.py). Every mutation is claimed under its idempotency
 key before it is dispatched: it is dispatched at most once, a completed one is answered from
 the ledger, an unfinished one is refused, and a key reused for another request is rejected.
 */
module Mutations {
  import opened Options

  datatype ErrorCode =
    | Unauthorized | IdentityMismatch | Conflict | UncertainEffect | NotFound | Expired | InvalidRequest | Internal
    | OtherCode

  datatype Body = Success(result: string) | Failure(code: ErrorCode)

  datatype Response = Response(requestId: string, body: Body)

  /** The fingerprint stands for operation, payload and target; hashing is taken to be injective. */
  datatype Request = Request(
    requestId: string, key: string, fingerprint: string, operation: string, authorized: bool, sameProject: bool)

  /** A row of ipc_mutation_replays; no response means it is still executing. */
  datatype Row = Row(fingerprint: string, response: Option<Response>)

  /** How the gateway answers: with a result, with an exception it translates, or with one it does not. */
  datatype Gateway = Answers(result: string) | Fails(code: ErrorCode) | Breaks

  datatype Outside = Outside(gateway: Gateway, livesToDispatch: bool, livesToComplete: bool)

  datatype Outcome = Replied(response: Response) | Died

  const MUTATIONS: set<string> :=
    {"start", "message", "confirm", "run", "pause", "resume", "interrupt", "cancel", "accept", "reject", "revise"}

  class RuntimeService {
    var replays: map<string, Row>
    var stopping: bool
    /** The keys of the mutations handed to the gateway. */
    ghost var dispatched: seq<string>

    constructor ()
      ensures Valid() && replays == map[] && !stopping && dispatched == []
    {
      replays, stopping, dispatched := map[], false, [];
    }

    ghost predicate Valid()
      reads this
    {
      && (forall i, j | 0 <= i < j < |dispatched| :: dispatched[i] != dispatched[j])
      && (forall key | key in dispatched :: key in replays)
    }

    /** `_claim`: the ledger's refusal or stored response, or None for the right to dispatch. */
    method Claim(request: Request) returns (answer: Option<Body>)
      modifies this`replays
      ensures answer.None? <==> request.key !in old(replays)
      ensures replays == if answer.None? then old(replays)[request.key := Row(request.fingerprint, None)] else old(replays)
      ensures answer.Some? ==> answer.value == Stored(old(replays)[request.key], request.fingerprint)
    {
      if request.key in replays {
        var row := replays[request.key];
        if row.fingerprint != request.fingerprint { return Some(Failure(Conflict)); }
        if row.response.None? { return Some(Failure(UncertainEffect)); }
        return Some(row.response.value.body);
      }
      replays := replays[request.key := Row(request.fingerprint, None)];
      return None;
    }

    /** `_complete`: only an executing row is completed. */
    method Complete(request: Request, response: Response)
      modifies this`replays
      ensures replays ==
        if request.key in old(replays) && old(replays)[request.key].response.None?
        then old(replays)[request.key := Row(old(replays)[request.key].fingerprint, Some(response))] else old(replays)
    {
      if request.key in replays && replays[request.key].response.None? {
        replays := replays[request.key := Row(replays[request.key].fingerprint, Some(response))];
      }
    }

    /** `_dispatch`, with the errors its caller turns into failure responses. */
    method Dispatch(request: Request, outside: Outside) returns (outcome: Outcome)
      requires Valid()
      modifies this
      ensures Valid()
      ensures dispatched == old(dispatched)
        + if IsMutation(request) && request.key !in old(replays) && outside.livesToDispatch then [request.key] else []
      ensures forall key | key in old(replays) :: key in replays && replays[key] == old(replays)[key]
      ensures outcome.Replied? ==> outcome.response.requestId == request.requestId
      ensures IsMutation(request) && request.key in old(replays) ==>
        && dispatched == old(dispatched) && replays == old(replays)
        && outcome == Replied(Response(request.requestId, Stored(old(replays)[request.key], request.fingerprint)))
      ensures IsMutation(request) && request.key !in old(replays) ==>
        && outcome == Dispatched(request, outside)
        && replays == old(replays)[request.key := Row(
             request.fingerprint, if outcome.Replied? && outside.gateway != Breaks then Some(outcome.response) else None)]
      ensures !IsMutation(request) ==> replays == old(replays) && dispatched == old(dispatched)
      ensures !request.authorized ==> outcome == Replied(Response(request.requestId, Failure(Unauthorized)))
      ensures request.authorized && !request.sameProject ==>
        outcome == Replied(Response(request.requestId, Failure(IdentityMismatch)))
      ensures stopping == (old(stopping) || (request.authorized && request.sameProject && request.operation == "shutdown"))
    {
      if !request.authorized { return Replied(Response(request.requestId, Failure(Unauthorized))); }
      if !request.sameProject { return Replied(Response(request.requestId, Failure(IdentityMismatch))); }
      if request.operation == "health" { return Replied(Response(request.requestId, Success("healthy"))); }
      if request.operation == "shutdown" {
        stopping := true;
        return Replied(Response(request.requestId, Success("stopping")));
      }
      if request.operation in MUTATIONS {
        var answer := Claim(request);
        if answer.Some? { return Replied(Response(request.requestId, answer.value)); }
        if !outside.livesToDispatch { return Died; }
        dispatched := dispatched + [request.key];
      }
      var response: Response;
      match outside.gateway {
        case Answers(result) => response := Response(request.requestId, Success(result));
        case Fails(code) => response := Response(request.requestId, Failure(code));
        case Breaks => return Replied(Response(request.requestId, Failure(Internal)));
      }
      if request.operation in MUTATIONS {
        if !outside.livesToComplete { return Died; }
        Complete(request, response);
      }
      return Replied(response);
    }
  }

  /** What the ledger says of a key that it knows. */
  function Stored(row: Row, fingerprint: string): Body {
    if row.fingerprint != fingerprint then Failure(Conflict)
    else if row.response.None? then Failure(UncertainEffect)
    else row.response.value.body
  }

  /** What the one dispatch of a mutation answers. */
  function Dispatched(request: Request, outside: Outside): Outcome {
    if !outside.livesToDispatch then Died
    else
      match outside.gateway
      case Breaks => Replied(Response(request.requestId, Failure(Internal)))
      case Answers(result) => if outside.livesToComplete then Replied(Response(request.requestId, Success(result))) else Died
      case Fails(code) => if outside.livesToComplete then Replied(Response(request.requestId, Failure(code))) else Died
  }

  /** An authorized mutation of this project. */
  predicate IsMutation(r: Request) {
    r.authorized && r.sameProject && r.operation != "health" && r.operation != "shutdown" && r.operation in MUTATIONS
  }
}
