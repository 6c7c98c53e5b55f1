/** The JavaScript built-ins the mock handlers are written with:
    `Array.prototype.slice`, `Array.prototype.filter`, `Array.prototype.find`,
    `String.prototype.includes` and `String.prototype.startsWith`, each with
    the properties the handlers rely on. */
module Builtins {
  import opened Common

  function Min(a: int, b: int): int { if a <= b then a else b }

  function Max(a: int, b: int): int { if a <= b then b else a }

  // ---------------------------------------------------------------------------
  // slice
  // ---------------------------------------------------------------------------

  /** How `slice` turns an argument into a position: a negative index counts
      back from the end, and the result is clamped to `0..len`. */
  function SliceIndex(i: int, len: nat): (r: nat)
    ensures r <= len
  {
    if i < 0 then Max(len + i, 0) else Min(i, len)
  }

  /** `s.slice(start, end)`: the elements from position `start` up to, not
      including, position `end`; empty when the first position is not before
      the second. */
  function Slice<T>(s: seq<T>, start: int, end: int): (r: seq<T>)
    ensures start <= end ==> |r| <= end - start
    ensures 0 <= start <= end ==> r == s[Min(start, |s|)..Min(end, |s|)]
    ensures forall x :: x in r ==> x in s
  {
    var from := SliceIndex(start, |s|);
    var to := SliceIndex(end, |s|);
    if from < to then s[from..to] else []
  }

  // ---------------------------------------------------------------------------
  // filter
  // ---------------------------------------------------------------------------

  /** `s.filter(p)`: the elements of `s` that satisfy `p`, in their order.
      An element is kept exactly as often as it occurs in `s` when it
      satisfies `p`, and not at all otherwise. */
  function Filter<T(!new)>(s: seq<T>, p: T -> bool): (r: seq<T>)
    ensures |r| <= |s|
    ensures forall x :: x in r <==> x in s && p(x)
    ensures forall x :: multiset(r)[x] == if p(x) then multiset(s)[x] else 0
  {
    if s == [] then []
    else
      assert s == [s[0]] + s[1..];
      if p(s[0]) then [s[0]] + Filter(s[1..], p) else Filter(s[1..], p)
  }

  /** `a` is obtained from `b` by deleting elements: the elements of `a` occur
      in `b` in the same relative order. */
  ghost predicate IsSubsequence<T>(a: seq<T>, b: seq<T>)
    decreases |b|
  {
    if a == [] then true
    else if b == [] then false
    else (a[0] == b[0] && IsSubsequence(a[1..], b[1..])) || IsSubsequence(a, b[1..])
  }

  /** Filtering preserves the relative order of what it keeps. */
  lemma {:induction false} FilterIsSubsequence<T(!new)>(s: seq<T>, p: T -> bool)
    ensures IsSubsequence(Filter(s, p), s)
  {
    if s != [] {
      FilterIsSubsequence(s[1..], p);
      var r := Filter(s, p);
      if p(s[0]) {
        assert r[0] == s[0] && r[1..] == Filter(s[1..], p);
      } else {
        assert r == Filter(s[1..], p);
      }
    }
  }

  /** A filter whose predicate holds of every element returns its input. */
  lemma {:induction false} FilterKeepsAll<T(!new)>(s: seq<T>, p: T -> bool)
    requires forall i :: 0 <= i < |s| ==> p(s[i])
    ensures Filter(s, p) == s
  {
    if s != [] {
      FilterKeepsAll(s[1..], p);
    }
  }

  /** Two predicates that agree on every element filter alike. */
  lemma {:induction false} FilterCongruent<T(!new)>(s: seq<T>, p: T -> bool, q: T -> bool)
    requires forall i :: 0 <= i < |s| ==> p(s[i]) == q(s[i])
    ensures Filter(s, p) == Filter(s, q)
  {
    if s != [] {
      FilterCongruent(s[1..], p, q);
    }
  }

  /** Two filters in a row keep what one filter with both conditions keeps. */
  lemma {:induction false} FilterFuse<T(!new)>(s: seq<T>, p: T -> bool, q: T -> bool, pq: T -> bool)
    requires forall x :: pq(x) == (p(x) && q(x))
    ensures Filter(Filter(s, p), q) == Filter(s, pq)
  {
    if s != [] {
      FilterFuse(s[1..], p, q, pq);
      if p(s[0]) {
        assert Filter(s, p) == [s[0]] + Filter(s[1..], p);
        assert Filter(s, p)[1..] == Filter(s[1..], p);
      }
    }
  }

  /** The step a chain of optional filters takes: when the filter is applied
      (`present`), the survivors are those of the previous stage (`before`)
      that also satisfy `p`; when it is skipped, nothing changes. Either way
      the stage equals one filter with the accumulated condition `after`. */
  lemma OptionalFilterStage<T(!new)>(s: seq<T>, present: bool, p: T -> bool, before: T -> bool, after: T -> bool)
    requires forall x :: after(x) == (before(x) && (!present || p(x)))
    ensures (if present then Filter(Filter(s, before), p) else Filter(s, before)) == Filter(s, after)
  {
    if present {
      FilterFuse(s, before, p, after);
    } else {
      FilterCongruent(s, before, after);
    }
  }

  // ---------------------------------------------------------------------------
  // find
  // ---------------------------------------------------------------------------

  /** The position of the first element of `s` satisfying `p`, if any. */
  function FindIndex<T>(s: seq<T>, p: T -> bool): (r: Option<nat>)
    ensures r.None? ==> forall i :: 0 <= i < |s| ==> !p(s[i])
    ensures r.Some? ==> r.value < |s| && p(s[r.value]) && forall j :: 0 <= j < r.value ==> !p(s[j])
  {
    if s == [] then None
    else if p(s[0]) then Some(0)
    else match FindIndex(s[1..], p)
      case None => None
      case Some(k) => Some(k + 1)
  }

  /** `s.find(p)`: the first element satisfying `p`, or nothing when none does. */
  function Find<T>(s: seq<T>, p: T -> bool): (r: Option<T>)
    ensures r.None? <==> forall i :: 0 <= i < |s| ==> !p(s[i])
    ensures r.Some? ==> exists i :: 0 <= i < |s| && s[i] == r.value && p(s[i]) &&
                                    forall j :: 0 <= j < i ==> !p(s[j])
  {
    match FindIndex(s, p)
    case None => None
    case Some(i) => Some(s[i])
  }

  // ---------------------------------------------------------------------------
  // includes and startsWith
  // ---------------------------------------------------------------------------

  /** `s.startsWith(prefix)`. */
  predicate StartsWith(s: string, prefix: string) {
    prefix <= s
  }

  /** `sub` occurs in `s` beginning at position `i`. */
  ghost predicate OccursAt(s: string, sub: string, i: nat) {
    i + |sub| <= |s| && s[i..i + |sub|] == sub
  }

  /** `s.includes(sub)`: `sub` is a prefix of `s` or of one of its suffixes. */
  predicate Includes(s: string, sub: string)
    decreases |s|
  {
    StartsWith(s, sub) || (s != [] && Includes(s[1..], sub))
  }

  /** `Includes` holds exactly when `sub` occurs somewhere in `s`; in
      particular the empty string is included in every string. */
  lemma {:induction false} IncludesIffOccurs(s: string, sub: string)
    ensures Includes(s, sub) <==> exists i: nat :: OccursAt(s, sub, i)
  {
    if StartsWith(s, sub) {
      assert OccursAt(s, sub, 0);
    } else if s == [] {
      forall i: nat ensures !OccursAt(s, sub, i) { }
    } else {
      IncludesIffOccurs(s[1..], sub);
      if Includes(s[1..], sub) {
        var i: nat :| OccursAt(s[1..], sub, i);
        assert s[i + 1..i + 1 + |sub|] == s[1..][i..i + |sub|];
        assert OccursAt(s, sub, i + 1);
      }
      forall i: nat | OccursAt(s, sub, i) ensures Includes(s, sub) {
        if i > 0 {
          assert s[1..][i - 1..i - 1 + |sub|] == s[i..i + |sub|];
          assert OccursAt(s[1..], sub, i - 1);
        }
      }
    }
  }
}
