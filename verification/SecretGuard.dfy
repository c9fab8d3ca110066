/**
 The streaming matcher for secret variants in UI responses (ui/security.py). Only a tail as
 long as the longest variant less one is kept, and yet cutting a stream into chunks changes
 neither whether it is rejected nor at which of its bytes.
 */
module SecretGuard {
  import opened Options

  type Bytes = seq<bv8>

  /** `v` occurs in `s`, ending just before position `e`. */
  predicate EndsAt(v: Bytes, s: Bytes, e: int) { |v| <= e <= |s| && s[e - |v|..e] == v }

  /** Some variant occurs. */
  ghost predicate Leaks(variants: set<Bytes>, s: Bytes) { exists v, e :: v in variants && EndsAt(v, s, e) }

  /** The earliest position at which an occurrence of some variant is complete. */
  ghost predicate IsEarliestEnd(variants: set<Bytes>, s: Bytes, e: int) {
    && (exists v :: v in variants && EndsAt(v, s, e))
    && forall v, f | v in variants && EndsAt(v, s, f) :: e <= f
  }

  // ---- the kept tail ----

  /** `combined[-n:]`, or nothing when n is 0. */
  function Tail(s: Bytes, n: nat): Bytes { if n == 0 then [] else if |s| <= n then s else s[|s| - n..] }

  predicate FitsTail(variants: set<Bytes>, n: nat) { forall v | v in variants :: 0 < |v| <= n + 1 }

  lemma TailOfTail(s: Bytes, chunk: Bytes, n: nat)
    ensures Tail(Tail(s, n) + chunk, n) == Tail(s + chunk, n)
  {
    var t := Tail(s, n);
    assert s == s[..|s| - |t|] + t;
    assert s + chunk == s[..|s| - |t|] + (t + chunk);
  }

  /** An occurrence in the whole stream that ends in the new chunk lies in the kept tail and the chunk. */
  lemma NewEndsAreSeen(variants: set<Bytes>, s: Bytes, chunk: Bytes, n: nat, v: Bytes, e: int)
    requires FitsTail(variants, n) && v in variants && e > |s|
    ensures EndsAt(v, s + chunk, e) <==> |s| - |Tail(s, n)| <= e && EndsAt(v, Tail(s, n) + chunk, e - (|s| - |Tail(s, n)|))
  {
    var t := Tail(s, n);
    var cut := |s| - |t|;
    assert s + chunk == s[..cut] + (t + chunk);
    if EndsAt(v, s + chunk, e) || EndsAt(v, t + chunk, e - cut) {
      assert e - |v| >= cut;
      assert (s + chunk)[e - |v|..e] == (t + chunk)[e - cut - |v|..e - cut];
    }
  }

  lemma OldEndsAreOld(v: Bytes, s: Bytes, chunk: Bytes, e: int)
    requires e <= |s|
    ensures EndsAt(v, s + chunk, e) <==> EndsAt(v, s, e)
  {
    if |v| <= e { assert (s + chunk)[e - |v|..e] == s[e - |v|..e]; }
  }

  /** The tail and the chunk leak exactly when the whole stream does, given that it did not before. */
  lemma TailSeesWhatTheStreamSees(variants: set<Bytes>, s: Bytes, chunk: Bytes, n: nat)
    requires FitsTail(variants, n) && !Leaks(variants, s)
    ensures Leaks(variants, Tail(s, n) + chunk) <==> Leaks(variants, s + chunk)
  {
    var t := Tail(s, n);
    var cut := |s| - |t|;
    if Leaks(variants, s + chunk) {
      var v, e :| v in variants && EndsAt(v, s + chunk, e);
      if e <= |s| { OldEndsAreOld(v, s, chunk, e); }
      else {
        NewEndsAreSeen(variants, s, chunk, n, v, e);
        assert EndsAt(v, t + chunk, e - cut);
      }
    }
    if Leaks(variants, t + chunk) {
      var v, f :| v in variants && EndsAt(v, t + chunk, f);
      assert s + chunk == s[..cut] + (t + chunk);
      assert (s + chunk)[f + cut - |v|..f + cut] == (t + chunk)[f - |v|..f];
      assert EndsAt(v, s + chunk, f + cut);
    }
  }

  // ---- the guard ----

  class StreamingSecretGuard {
    const variants: set<Bytes>
    const tailSize: nat
    var tail: Bytes
    /** What has been let through since the last reset. */
    ghost var passed: Bytes

    ghost predicate Valid()
      reads this
    {
      FitsTail(variants, tailSize) && tail == Tail(passed, tailSize) && !Leaks(variants, passed)
    }

    /** The variants are those of the configured non-empty secrets. */
    constructor (variants: set<Bytes>)
      requires forall v | v in variants :: v != []
      ensures Valid() && this.variants == variants && passed == []
    {
      this.variants := variants;
      var longest := LongestOf(variants);
      tailSize := longest - 1;
      tail, passed := [], [];
    }

    /** `max(len(item), default=1)`. */
    static method LongestOf(variants: set<Bytes>) returns (longest: nat)
      requires forall v | v in variants :: v != []
      ensures longest >= 1 && forall v | v in variants :: |v| <= longest
    {
      longest := 1;
      var rest := variants;
      while rest != {}
        invariant rest <= variants && longest >= 1 && forall v | v in variants - rest :: |v| <= longest
        decreases |rest|
      {
        var v :| v in rest;
        if |v| > longest { longest := |v|; }
        rest := rest - {v};
      }
    }

    /** `_reject`. */
    method Reject(value: Bytes) returns (raised: bool)
      ensures raised <==> Leaks(variants, value)
    {
      raised := exists v | v in variants :: exists e | 0 <= e <= |value| :: EndsAt(v, value, e);
    }

    method CheckText(value: Bytes) returns (raised: bool)
      ensures raised <==> Leaks(variants, value)
    {
      raised := Reject(value);
    }

    method CheckChunk(value: Bytes) returns (raised: bool)
      requires Valid()
      modifies this
      ensures Valid() && raised == Leaks(variants, old(passed) + value)
      ensures passed == if raised then old(passed) else old(passed) + value
    {
      var combined := tail + value;
      TailSeesWhatTheStreamSees(variants, passed, value, tailSize);
      TailOfTail(passed, value, tailSize);
      raised := Reject(combined);
      if raised { return; }
      tail := if tailSize > 0 then (if |combined| <= tailSize then combined else combined[|combined| - tailSize..]) else [];
      passed := passed + value;
    }

    method Reset()
      modifies this
      requires Valid()
      ensures Valid() && passed == []
    {
      LessLeaksLess(variants, passed);
      tail, passed := [], [];
    }

    /** A response streamed through the guard, up to the chunk that is refused. */
    method CheckStream(chunks: seq<Bytes>) returns (refused: Option<nat>)
      requires Valid() && passed == []
      modifies this
      ensures Valid()
      ensures refused.None? <==> !Leaks(variants, Flatten(chunks))
      ensures refused.Some? ==> refused.value < |chunks| && HoldsEarliestEnd(variants, chunks, refused.value)
    {
      for i := 0 to |chunks|
        invariant Valid() && passed == Flatten(chunks[..i])
      {
        FlattenOneMore(chunks, i);
        var raised := CheckChunk(chunks[i]);
        if raised {
          FirstLeakIsEarliest(variants, chunks, i);
          return Some(i);
        }
      }
      assert chunks[..|chunks|] == chunks;
      return None;
    }
  }

  lemma LessLeaksLess(variants: set<Bytes>, s: Bytes)
    requires !Leaks(variants, s)
    ensures !Leaks(variants, [])
  {
    forall v, e | v in variants && EndsAt(v, [], e) ensures false { assert EndsAt(v, s, 0); }
  }

  // ---- streams and chunks ----

  function Flatten(chunks: seq<Bytes>): Bytes {
    if chunks == [] then [] else Flatten(chunks[..|chunks| - 1]) + chunks[|chunks| - 1]
  }

  lemma FlattenOneMore(chunks: seq<Bytes>, i: nat)
    requires i < |chunks|
    ensures Flatten(chunks[..i + 1]) == Flatten(chunks[..i]) + chunks[i]
  {
    assert chunks[..i + 1][..i] == chunks[..i];
  }

  lemma {:induction false} FlattenIsPrefix(chunks: seq<Bytes>, i: nat)
    requires i <= |chunks|
    ensures Flatten(chunks[..i]) <= Flatten(chunks)
    decreases |chunks|
  {
    if i == |chunks| { assert chunks[..i] == chunks; }
    else {
      var shorter := chunks[..|chunks| - 1];
      FlattenIsPrefix(shorter, i);
      assert shorter[..i] == chunks[..i];
    }
  }

  /** The chunk holds the end of the earliest-ending occurrence in the whole stream. */
  ghost predicate HoldsEarliestEnd(variants: set<Bytes>, chunks: seq<Bytes>, i: nat)
    requires i < |chunks|
  {
    exists e :: IsEarliestEnd(variants, Flatten(chunks), e) && EndsIn(chunks, i, e)
  }

  /** Position `e` of the stream ends a byte of chunk `i`. */
  predicate EndsIn(chunks: seq<Bytes>, i: nat, e: int)
    requires i < |chunks|
  {
    |Flatten(chunks[..i])| < e <= |Flatten(chunks[..i + 1])|
  }

  lemma {:induction false} EarliestEndExists(variants: set<Bytes>, s: Bytes, k: nat) returns (e: int)
    requires exists v, f :: v in variants && EndsAt(v, s, f) && f <= k
    ensures IsEarliestEnd(variants, s, e) && e <= k
    decreases k
  {
    if k > 0 && exists v, f :: v in variants && EndsAt(v, s, f) && f <= k - 1 {
      e := EarliestEndExists(variants, s, k - 1);
    } else {
      e := k;
    }
  }

  lemma PrefixEnds(v: Bytes, s: Bytes, longer: Bytes, e: int)
    requires s <= longer && e <= |s|
    ensures EndsAt(v, longer, e) <==> EndsAt(v, s, e)
  {
    assert longer == s + longer[|s|..];
    OldEndsAreOld(v, s, longer[|s|..], e);
  }

  /** The first chunk after which the stream leaks holds the earliest end. */
  lemma FirstLeakIsEarliest(variants: set<Bytes>, chunks: seq<Bytes>, i: nat)
    requires i < |chunks| && !Leaks(variants, Flatten(chunks[..i])) && Leaks(variants, Flatten(chunks[..i + 1]))
    ensures Leaks(variants, Flatten(chunks)) && HoldsEarliestEnd(variants, chunks, i)
  {
    var whole, before, upTo := Flatten(chunks), Flatten(chunks[..i]), Flatten(chunks[..i + 1]);
    FlattenIsPrefix(chunks, i);
    FlattenIsPrefix(chunks, i + 1);
    var v, f :| v in variants && EndsAt(v, upTo, f);
    PrefixEnds(v, upTo, whole, f);
    var e := EarliestEndExists(variants, whole, f);
    var w :| w in variants && EndsAt(w, whole, e);
    if e <= |before| { PrefixEnds(w, before, whole, e); }
    assert EndsIn(chunks, i, e);
  }

  lemma EarliestIsUnique(variants: set<Bytes>, s: Bytes, e: int, f: int)
    requires IsEarliestEnd(variants, s, e) && IsEarliestEnd(variants, s, f)
    ensures e == f
  {
    var v :| v in variants && EndsAt(v, s, e);
    var w :| w in variants && EndsAt(w, s, f);
  }

  /** However a stream is cut, the chunk that is refused holds the same byte. */
  lemma CuttingDoesNotMatter(variants: set<Bytes>, chunks: seq<Bytes>, others: seq<Bytes>, i: nat, j: nat)
    requires Flatten(chunks) == Flatten(others) && i < |chunks| && j < |others|
    requires HoldsEarliestEnd(variants, chunks, i) && HoldsEarliestEnd(variants, others, j)
    ensures exists e :: EndsIn(chunks, i, e) && EndsIn(others, j, e) && IsEarliestEnd(variants, Flatten(chunks), e)
  {
    hide IsEarliestEnd, EndsIn;
    var e :| IsEarliestEnd(variants, Flatten(chunks), e) && EndsIn(chunks, i, e);
    var f :| IsEarliestEnd(variants, Flatten(others), f) && EndsIn(others, j, f);
    EarliestIsUnique(variants, Flatten(chunks), e, f);
  }
}
