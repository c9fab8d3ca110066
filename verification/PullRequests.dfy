/**
 Pull request creation (delivery/github.py): an intent row before the POST, a handle row after
 it. Against an arbitrary remote, with lost responses and with the process dying anywhere, at
 most one POST is sent per identity, and a checkpointed handle is what every later call returns.
 */
module PullRequests {
  import opened Options

  datatype Spec = Spec(runId: string, base: string, head: string, title: string, body: string, draft: bool)

  /** The hash of repository, run and branch pair; hashing is taken to be injective. */
  datatype Key = Key(repository: string, runId: string, base: string, head: string)

  datatype Payload = Payload(
    head: Option<string>, base: Option<string>, number: Option<nat>, url: Option<string>, nodeId: Option<string>)

  datatype Handle = Handle(
    runId: string, repository: string, base: string, head: string, number: nat, url: string, nodeId: string)

  datatype IntentState = Creating | Uncertain | Failed | Recorded

  datatype ErrorKind = Barrier | UncertainEffect | Identity | Api | Network | OtherKind

  datatype Outcome = Done(handle: Handle) | Refused(kind: ErrorKind) | Died

  /** What the remote makes of a GET: a list, something else, or an error. */
  datatype Listing = Prs(items: seq<Payload>) | NoList | ListingFails(kind: ErrorKind)

  /** What becomes of a POST: a created request, another answer, or an error. */
  datatype Reply = Created(payload: Payload) | Unconfirmed | PostFails(kind: ErrorKind)

  /** Everything one call meets outside; `lives` durable or remote steps before the process dies. */
  datatype Outside = Outside(mayWrite: bool, stillMayWrite: bool, listing: Listing, reply: Reply, lives: nat)

  predicate Matches(p: Payload, spec: Spec) { p.head == Some(spec.head) && p.base == Some(spec.base) }

  /** `_validate_pr`. */
  predicate IsConfirmed(p: Payload, spec: Spec) {
    Matches(p, spec) && p.number.Some? && p.url.Some? && p.nodeId.Some?
  }

  /** Two open requests of the branch pair: the identity is ambiguous. */
  ghost predicate IsAmbiguous(items: seq<Payload>, spec: Spec) {
    exists i, j :: 0 <= i < j < |items| && Matches(items[i], spec) && Matches(items[j], spec)
  }

  /** The remote answers with a list that holds no request of the branch pair. */
  ghost predicate FindsNone(listing: Listing, spec: Spec) {
    listing.Prs? && forall p | p in listing.items :: !Matches(p, spec)
  }

  /** The remote answers with a list whose one request of the branch pair is `p`. */
  ghost predicate FindsOnly(listing: Listing, spec: Spec, p: Payload) {
    listing.Prs? && p in listing.items && Matches(p, spec) && !IsAmbiguous(listing.items, spec)
  }

  class PullRequestManager {
    const repository: string
    var intents: map<Key, IntentState>
    var handles: map<Key, Handle>
    /** The POSTs sent so far, answered or not. */
    ghost var posted: seq<Key>

    constructor (repository: string)
      ensures Valid() && this.repository == repository && intents == map[] && posted == []
    {
      this.repository := repository;
      intents, handles, posted := map[], map[], [];
    }

    function KeyOf(spec: Spec): Key { Key(repository, spec.runId, spec.base, spec.head) }

    /** One POST per key, never without an intent row; handles carry the identity of their key. */
    ghost predicate Valid()
      reads this
    {
      && (forall i, j | 0 <= i < j < |posted| :: posted[i] != posted[j])
      && (forall k | k in posted :: k in intents)
      && (forall k | k in handles ::
            && k in intents && handles[k].repository == k.repository && handles[k].runId == k.runId
            && handles[k].base == k.base && handles[k].head == k.head)
    }

    /** Checkpointed handles stay as they are, and intents are never withdrawn. */
    twostate predicate Keeps()
      reads this
    {
      && old(intents).Keys <= intents.Keys
      && forall k | k in old(handles) :: k in handles && handles[k] == old(handles)[k]
    }

    function HandleOf(spec: Spec, p: Payload): Handle
      requires IsConfirmed(p, spec)
    {
      Handle(spec.runId, repository, spec.base, spec.head, p.number.value, p.url.value, p.nodeId.value)
    }

    /** What the caller gets for a request that the remote says is the one. */
    function Confirmed(spec: Spec, p: Payload, lives: nat): Outcome {
      if !IsConfirmed(p, spec) then Refused(Identity) else if lives == 0 then Died else Done(HandleOf(spec, p))
    }

    /** When a call sends a POST: nothing is known of the key, here or at the remote, and no barrier is up. */
    ghost predicate Creates(spec: Spec, outside: Outside)
      reads this`handles, this`intents
    {
      && KeyOf(spec) !in handles && KeyOf(spec) !in intents && outside.mayWrite && outside.stillMayWrite
      && outside.lives >= 2 && FindsNone(outside.listing, spec)
    }

    /** `_ensure`. */
    method Ensure(spec: Spec, outside: Outside) returns (outcome: Outcome)
      requires Valid()
      modifies this
      ensures Valid() && Keeps()
      ensures posted == old(posted) + if old(Creates(spec, outside)) then [KeyOf(spec)] else []
      ensures outcome.Done? ==> KeyOf(spec) in handles && handles[KeyOf(spec)] == outcome.handle
      ensures KeyOf(spec) !in old(handles) && !outside.mayWrite ==>
        outcome == Refused(Barrier) && handles == old(handles) && intents == old(intents)
      ensures KeyOf(spec) !in old(handles) && outside.mayWrite && outside.lives > 0 ==>
        && KeyOf(spec) in intents
        && (forall p | FindsOnly(outside.listing, spec, p) :: outcome == Confirmed(spec, p, outside.lives - 1))
        && (KeyOf(spec) in old(intents) && FindsNone(outside.listing, spec) ==> outcome == Refused(UncertainEffect))
        && (old(Creates(spec, outside)) && outside.reply.Created? ==>
              outcome == Confirmed(spec, outside.reply.payload, outside.lives - 2))
      ensures KeyOf(spec) in old(handles) ==>
        outcome == Done(old(handles)[KeyOf(spec)]) && handles == old(handles) && intents == old(intents)
      ensures KeyOf(spec) in old(intents) && KeyOf(spec) !in old(handles) && outcome.Done? ==>
        outside.listing.Prs? && exists p :: p in outside.listing.items && IsConfirmed(p, spec)
    {
      var key := KeyOf(spec);
      if key in handles { return Done(handles[key]); }
      if !outside.mayWrite { return Refused(Barrier); }
      if outside.lives == 0 { return Died; }
      var isNew := key !in intents;
      if isNew { intents := intents[key := Creating]; }
      var found := Discover(spec, outside.listing);
      match found {
        case Left(kind) => return Refused(kind);
        case Right(Some(payload)) =>
          outcome := Checkpoint(key, spec, payload, outside.lives - 1);
          return;
        case Right(None) =>
      }
      if !isNew { return Refused(UncertainEffect); }
      if !outside.stillMayWrite { return Refused(Barrier); }
      if outside.lives == 1 { return Died; }
      outcome := Post(key, spec, outside.reply, outside.lives - 2);
    }

    /** The POST and what is made of its answer. */
    method Post(key: Key, spec: Spec, reply: Reply, lives: nat) returns (outcome: Outcome)
      requires Valid() && key == KeyOf(spec) && key in intents && key !in handles && key !in posted
      modifies this
      ensures Valid() && posted == old(posted) + [key] && intents.Keys == old(intents).Keys
      ensures Keeps() && (outcome.Done? ==> key in handles && handles[key] == outcome.handle)
      ensures match reply
              case Created(p) => outcome == Confirmed(spec, p, lives)
              case Unconfirmed => outcome == Refused(Api) && intents == old(intents)
              case PostFails(kind) =>
                if lives == 0 then outcome == Died && intents == old(intents)
                else if kind == Network then outcome == Refused(UncertainEffect) && intents[key] == Uncertain
                else outcome == Refused(kind) && intents[key] == Failed
    {
      posted := posted + [key];
      match reply {
        case PostFails(kind) =>
          if lives == 0 { return Died; }
          intents := intents[key := if kind == Network then Uncertain else Failed];
          return Refused(if kind == Network then UncertainEffect else kind);
        case Unconfirmed => return Refused(Api);
        case Created(payload) => outcome := Checkpoint(key, spec, payload, lives);
      }
    }

    /** `_checkpoint`: INSERT OR IGNORE the handle, mark the intent. */
    method Checkpoint(key: Key, spec: Spec, payload: Payload, lives: nat) returns (outcome: Outcome)
      requires Valid() && key == KeyOf(spec) && key in intents && key !in handles
      modifies this`handles, this`intents
      ensures Valid() && intents.Keys == old(intents).Keys && Keeps()
      ensures outcome == Confirmed(spec, payload, lives)
      ensures if outcome.Done? then handles == old(handles)[key := outcome.handle] && intents == old(intents)[key := Recorded]
              else handles == old(handles) && intents == old(intents)
    {
      if !IsConfirmed(payload, spec) { return Refused(Identity); }
      if lives == 0 { return Died; }
      var handle := HandleOf(spec, payload);
      if key !in handles { handles := handles[key := handle]; }
      intents := intents[key := Recorded];
      return Done(handle);
    }

    /** `_discover`: the one open request of exactly this branch pair, if there is one. */
    method Discover(spec: Spec, listing: Listing) returns (found: Either<ErrorKind, Option<Payload>>)
      ensures found == Right(None) <==> FindsNone(listing, spec)
      ensures forall p :: found == Right(Some(p)) <==> FindsOnly(listing, spec, p)
      ensures found.Left? ==> found.left == if listing.ListingFails? then listing.kind else if listing.NoList? then Api else Identity
    {
      if listing.ListingFails? { return Left(listing.kind); }
      if listing.NoList? { return Left(Api); }
      var matches: seq<Payload> := [];
      ghost var at: seq<nat> := [];
      for i := 0 to |listing.items|
        invariant |at| == |matches| && forall k | 0 <= k < |at| :: at[k] < i && matches[k] == listing.items[at[k]]
        invariant forall k | 0 <= k < |at| :: Matches(matches[k], spec)
        invariant forall k, m | 0 <= k < m < |at| :: at[k] < at[m]
        invariant forall j | 0 <= j < i && Matches(listing.items[j], spec) :: j in at
      {
        if Matches(listing.items[i], spec) { matches, at := matches + [listing.items[i]], at + [i]; }
      }
      if |matches| > 1 {
        assert at[0] < at[1] && Matches(listing.items[at[0]], spec) && Matches(listing.items[at[1]], spec);
        return Left(Identity);
      }
      if matches == [] { return Right(None); }
      assert forall j | 0 <= j < |listing.items| && Matches(listing.items[j], spec) :: j == at[0];
      return Right(Some(matches[0]));
    }

    /** `_update` of title, body and draft: only for the handle that this run has checkpointed. */
    method Update(handle: Handle, mayWrite: bool, answer: Option<Payload>) returns (outcome: Outcome)
      requires Valid()
      ensures outcome.Done? ==> outcome.handle == handle
      ensures outcome.Done? <==>
        var key := Key(repository, handle.runId, handle.base, handle.head);
        && key in handles && handles[key] == handle && mayWrite
        && answer.Some? && IsConfirmed(answer.value, Spec(handle.runId, handle.base, handle.head, "", "", false))
    {
      var spec := Spec(handle.runId, handle.base, handle.head, "", "", false);
      var key := KeyOf(spec);
      if key !in handles || handles[key] != handle { return Refused(Identity); }
      if !mayWrite { return Refused(Barrier); }
      if answer.None? { return Refused(Api); }
      if !IsConfirmed(answer.value, spec) { return Refused(Identity); }
      return Done(handle);
    }
  }

  datatype Either<L, R> = Left(left: L) | Right(right: R)
}
