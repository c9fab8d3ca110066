/**
 The order SQLite and Python give identifiers (code point by code point), and the
 ascending listing of a finite set that every `ORDER BY id` and `sorted(...)` produces.
 */
module Ordering {

  predicate Less(a: string, b: string) {
    && |b| > 0
    && (|a| == 0 || a[0] < b[0] || (a[0] == b[0] && Less(a[1..], b[1..])))
  }

  lemma {:induction false} LessIsTotal(a: string, b: string)
    ensures a != b ==> Less(a, b) || Less(b, a)
    ensures !(Less(a, b) && Less(b, a))
    ensures !Less(a, a)
  {
    if |a| > 0 && |b| > 0 && a[0] == b[0] {
      LessIsTotal(a[1..], b[1..]);
      assert a == [a[0]] + a[1..] && b == [b[0]] + b[1..];
    }
    if |a| > 0 { LessIsTotal(a[1..], a[1..]); }
  }

  lemma {:induction false} LessIsTransitive(a: string, b: string, c: string)
    requires Less(a, b) && Less(b, c)
    ensures Less(a, c)
  {
    if |a| > 0 && a[0] == b[0] && b[0] == c[0] {
      LessIsTransitive(a[1..], b[1..], c[1..]);
    }
  }

  ghost predicate IsAscending(q: seq<string>) {
    forall i, j | 0 <= i < j < |q| :: Less(q[i], q[j])
  }

  ghost predicate IsLeast(m: string, s: set<string>) {
    m in s && forall x | x in s :: x != m ==> Less(m, x)
  }

  ghost function Least(s: set<string>): (m: string)
    requires s != {}
    ensures IsLeast(m, s)
  {
    var x :| x in s;
    if s == {x} then x
    else
      var m := Least(s - {x});
      LessIsTotal(x, m);
      if Less(m, x) then m
      else
        assert IsLeast(x, s) by {
          forall y | y in s && y != x ensures Less(x, y) {
            if y != m { LessIsTransitive(x, m, y); }
          }
        }
        x
  }

  /** The elements of a set in ascending order, without repetition. */
  ghost function Ascending(s: set<string>): (q: seq<string>)
    ensures IsAscending(q)
    ensures forall x :: x in q <==> x in s
    ensures |q| == |s|
  {
    if s == {} then [] else
      var m := Least(s);
      [m] + Ascending(s - {m})
  }

  lemma HeadIsLeast(q: seq<string>, s: set<string>)
    requires q != [] && s != {} && IsAscending(q)
    requires forall x :: x in q <==> x in s
    ensures q[0] == Least(s)
  {
    var m := Least(s);
    assert q[0] in s && m in q;
    if q[0] != m {
      var i :| 0 <= i < |q| && q[i] == m;
      LessIsTotal(q[0], m);
    }
  }

  lemma TailListsTheRest(q: seq<string>, s: set<string>, x: string)
    requires q != [] && IsAscending(q)
    requires forall y :: y in q <==> y in s
    ensures x in q[1..] <==> x in s - {q[0]}
  {
    LessIsTotal(q[0], q[0]);
    if x in q[1..] {
      var j :| 0 <= j < |q[1..]| && q[1..][j] == x;
      assert q[j + 1] == x && Less(q[0], q[j + 1]);
    }
    if x in s - {q[0]} {
      assert x in q;
      var j :| 0 <= j < |q| && q[j] == x;
      assert q[1..][j - 1] == x;
    }
  }

  lemma TailIsAscending(q: seq<string>)
    requires q != [] && IsAscending(q)
    ensures IsAscending(q[1..])
  {
  }

  /** There is only one ascending listing, so any correct sort computes `Ascending`. */
  lemma {:induction false} AscendingIsUnique(q: seq<string>, s: set<string>)
    requires IsAscending(q)
    requires forall x :: x in q <==> x in s
    ensures q == Ascending(s)
    decreases |q|
  {
    hide Less, IsAscending, IsLeast;
    if q == [] {
      assert forall x | x in s :: x in q;
      assert s == {};
    } else {
      assert q[0] in s;
      HeadIsLeast(q, s);
      forall x ensures x in q[1..] <==> x in s - {q[0]} { TailListsTheRest(q, s, x); }
      TailIsAscending(q);
      AscendingIsUnique(q[1..], s - {q[0]});
      assert q == [q[0]] + q[1..];
    }
  }

  /** Every `ORDER BY id` and every `sorted(set(...))`. */
  method Sort(s: set<string>) returns (sorted: seq<string>)
    ensures sorted == Ascending(s)
  {
    sorted := [];
    var rest := s;
    while rest != {}
      invariant IsAscending(sorted)
      invariant forall x :: x in s <==> x in sorted || x in rest
      invariant forall x, y | x in sorted && y in rest :: Less(x, y)
      decreases |rest|
    {
      var m := FindLeast(rest);
      ghost var before := sorted;
      sorted, rest := sorted + [m], rest - {m};
      assert forall x :: x in sorted <==> x in before || x == m;
    }
    AscendingIsUnique(sorted, s);
  }

  method FindLeast(s: set<string>) returns (m: string)
    requires s != {}
    ensures IsLeast(m, s)
  {
    m :| m in s;
    var others := s - {m};
    ghost var seen := {m};
    while others != {}
      invariant m in seen && seen + others == s && seen !! others
      invariant forall x | x in seen && x != m :: Less(m, x)
      decreases |others|
    {
      var x :| x in others;
      LessIsTotal(x, m);
      if Less(x, m) {
        forall y | y in seen ensures Less(x, y) { if y != m { LessIsTransitive(x, m, y); } }
        m := x;
      }
      seen, others := seen + {x}, others - {x};
    }
    assert seen == s;
  }
}
