/**
 * `Array.prototype.filter`: the elements of a list that pass a test, in
 * their order, as a specification function and as the loop that computes it.
 */
module Sieve {

  /** The elements of `s` that pass `keep`, in their order in `s`. */
  function Select<T>(s: seq<T>, keep: T -> bool): seq<T>
  {
    if s == [] then [] else (if keep(s[0]) then [s[0]] else []) + Select(s[1..], keep)
  }

  /** `Select` keeps each passing element as often as it occurs in `s`, and
      no other element. */
  lemma {:induction false} SelectCount<T>(s: seq<T>, keep: T -> bool, x: T)
    ensures multiset(Select(s, keep))[x] == if keep(x) then multiset(s)[x] else 0
  {
    if s != [] {
      SelectCount(s[1..], keep, x);
      assert s == [s[0]] + s[1..];
    }
  }

  /** An element is selected exactly when it is in `s` and passes. */
  lemma SelectMember<T>(s: seq<T>, keep: T -> bool, x: T)
    ensures x in Select(s, keep) <==> x in s && keep(x)
  {
    SelectCount(s, keep, x);
    assert x in Select(s, keep) <==> multiset(Select(s, keep))[x] > 0;
    assert x in s <==> multiset(s)[x] > 0;
  }

  /** Every selected element passes. */
  lemma SelectPasses<T>(s: seq<T>, keep: T -> bool)
    ensures forall i | 0 <= i < |Select(s, keep)| :: keep(Select(s, keep)[i])
  {
    var idx := SelectIndices(s, keep);
  }

  /** `Select` is an order-preserving subsequence of `s`: its elements sit at
      increasing positions `idx` of `s`, and those positions are exactly
      the ones whose element passes. */
  lemma SelectIndices<T>(s: seq<T>, keep: T -> bool) returns (idx: seq<nat>)
    ensures |idx| == |Select(s, keep)|
    ensures forall i, j | 0 <= i < j < |idx| :: idx[i] < idx[j]
    ensures forall i | 0 <= i < |idx| :: idx[i] < |s| && Select(s, keep)[i] == s[idx[i]]
    ensures forall j | 0 <= j < |s| :: j in idx <==> keep(s[j])
  {
    idx := Positions(s, keep);
    PositionsSelect(s, keep);
    PositionsIncreasing(s, keep);
    PositionsExact(s, keep);
  }

  /** The positions of the elements of `s` that pass `keep`, in order. */
  function Positions<T>(s: seq<T>, keep: T -> bool): seq<nat>
  {
    if s == [] then [] else (if keep(s[0]) then [0] else []) + Shift(Positions(s[1..], keep))
  }

  lemma {:induction false} PositionsSelect<T>(s: seq<T>, keep: T -> bool)
    ensures |Positions(s, keep)| == |Select(s, keep)|
    ensures forall i | 0 <= i < |Positions(s, keep)| ::
              Positions(s, keep)[i] < |s| && Select(s, keep)[i] == s[Positions(s, keep)[i]]
  {
    if s != [] {
      PositionsSelect(s[1..], keep);
      var rest := Positions(s[1..], keep);
      var tail := Select(s[1..], keep);
      forall i | 0 <= i < |rest| ensures Shift(rest)[i] < |s| && tail[i] == s[Shift(rest)[i]] {
        assert s[1..][rest[i]] == s[rest[i] + 1];
      }
    }
  }

  lemma {:induction false} PositionsIncreasing<T>(s: seq<T>, keep: T -> bool)
    ensures forall i, j | 0 <= i < j < |Positions(s, keep)| :: Positions(s, keep)[i] < Positions(s, keep)[j]
  {
    if s != [] {
      PositionsIncreasing(s[1..], keep);
    }
  }

  lemma {:induction false} PositionsExact<T>(s: seq<T>, keep: T -> bool)
    ensures forall j | 0 <= j < |s| :: j in Positions(s, keep) <==> keep(s[j])
  {
    if s != [] {
      PositionsExact(s[1..], keep);
      var shifted := Shift(Positions(s[1..], keep));
      forall j | 0 <= j < |s| ensures j in Positions(s, keep) <==> keep(s[j]) {
        if j > 0 {
          assert s[j] == s[1..][j - 1];
          assert j in Positions(s, keep) <==> j in shifted;
        }
      }
    }
  }

  /** Every position moved one place on. */
  function Shift(idx: seq<nat>): (r: seq<nat>)
    ensures |r| == |idx|
    ensures forall i | 0 <= i < |idx| :: r[i] == idx[i] + 1
    ensures forall j: nat :: j in r <==> j > 0 && j - 1 in idx
  {
    if idx == [] then [] else [idx[0] + 1] + Shift(idx[1..])
  }

  /** Two tests that agree on the elements of `s` select the same elements. */
  lemma {:induction false} SelectSame<T>(s: seq<T>, keep: T -> bool, keep': T -> bool)
    requires forall i | 0 <= i < |s| :: keep(s[i]) == keep'(s[i])
    ensures Select(s, keep) == Select(s, keep')
  {
    if s != [] {
      SelectSame(s[1..], keep, keep');
    }
  }

  /** Selecting by `first` and then by `second` is selecting once by a test
      that asks for both. */
  lemma {:induction false} SelectSelect<T>(s: seq<T>, first: T -> bool, second: T -> bool, both: T -> bool)
    requires forall i | 0 <= i < |s| :: both(s[i]) == (first(s[i]) && second(s[i]))
    ensures Select(Select(s, first), second) == Select(s, both)
  {
    if s != [] {
      SelectSelect(s[1..], first, second, both);
      var t := Select(s, first);
      if first(s[0]) {
        assert t == [s[0]] + Select(s[1..], first);
        assert t[0] == s[0] && t[1..] == Select(s[1..], first);
      } else {
        assert t == Select(s[1..], first);
      }
    }
  }

  /** The order of two selection steps does not matter. */
  lemma SelectCommute<T>(s: seq<T>, first: T -> bool, second: T -> bool)
    ensures Select(Select(s, first), second) == Select(Select(s, second), first)
  {
    var both := x => first(x) && second(x);
    SelectSelect(s, first, second, both);
    SelectSelect(s, second, first, both);
  }

  /** Selecting again by the same test changes nothing. */
  lemma SelectIdempotent<T>(s: seq<T>, keep: T -> bool)
    ensures Select(Select(s, keep), keep) == Select(s, keep)
  {
    SelectSelect(s, keep, keep, keep);
  }

  /** When every element passes, nothing is dropped. */
  lemma {:induction false} SelectAll<T>(s: seq<T>, keep: T -> bool)
    requires forall i | 0 <= i < |s| :: keep(s[i])
    ensures Select(s, keep) == s
  {
    if s != [] {
      SelectAll(s[1..], keep);
    }
  }

  /** `Array.prototype.filter(keep)`: one pass that appends each passing element. */
  method Filter<T>(s: seq<T>, keep: T -> bool) returns (r: seq<T>)
    ensures r == Select(s, keep)
  {
    r := [];
    var i := 0;
    while i < |s|
      invariant 0 <= i <= |s|
      invariant r + Select(s[i..], keep) == Select(s, keep)
    {
      assert s[i..][1..] == s[i + 1..];
      if keep(s[i]) {
        r := r + [s[i]];
      }
      i := i + 1;
    }
  }
}
