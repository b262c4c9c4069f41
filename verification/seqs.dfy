/** Sequence operations the processor uses through the Kotlin collections
    library: `filter`, `any` and `reversed`. */
module Seqs {

  /** `s.filter(p)`: the elements satisfying `p`, in their original order. */
  function Filter<T>(p: T -> bool, s: seq<T>): (r: seq<T>)
    ensures |r| <= |s|
  {
    if |s| == 0 then []
    else (if p(s[0]) then [s[0]] else []) + Filter(p, s[1..])
  }

  /** The filter keeps exactly the elements satisfying `p`: everything it
      returns is from `s` and satisfies `p`, and every such element of `s`
      is returned. */
  lemma {:induction false} FilterMembers<T>(p: T -> bool, s: seq<T>)
    ensures forall i :: 0 <= i < |Filter(p, s)| ==> Filter(p, s)[i] in s && p(Filter(p, s)[i])
    ensures forall i :: 0 <= i < |s| && p(s[i]) ==> s[i] in Filter(p, s)
    decreases |s|
  {
    if |s| > 0 {
      FilterMembers(p, s[1..]);
      FilterCons(p, s);
      var head := if p(s[0]) then [s[0]] else [];
      forall i | 0 <= i < |Filter(p, s)|
        ensures Filter(p, s)[i] in s && p(Filter(p, s)[i])
      {
        if i >= |head| {
          assert Filter(p, s)[i] == Filter(p, s[1..])[i - |head|];
        }
      }
      forall i | 0 <= i < |s| && p(s[i])
        ensures s[i] in Filter(p, s)
      {
        if i > 0 {
          assert s[i] == s[1..][i - 1];
        }
      }
    }
  }

  /** Filtering distributes over concatenation, so relative order is kept. */
  lemma {:induction false} FilterAppend<T>(p: T -> bool, a: seq<T>, b: seq<T>)
    ensures Filter(p, a + b) == Filter(p, a) + Filter(p, b)
    decreases |a|
  {
    if |a| == 0 {
      assert a + b == b;
    } else {
      var head := if p(a[0]) then [a[0]] else [];
      assert (a + b)[0] == a[0];
      assert (a + b)[1..] == a[1..] + b;
      FilterCons(p, a + b);
      FilterCons(p, a);
      FilterAppend(p, a[1..], b);
      assert head + (Filter(p, a[1..]) + Filter(p, b)) == (head + Filter(p, a[1..])) + Filter(p, b);
    }
  }

  /** When every element satisfies `p` the filter keeps the sequence intact. */
  lemma {:induction false} FilterAll<T>(p: T -> bool, s: seq<T>)
    requires forall i :: 0 <= i < |s| ==> p(s[i])
    ensures Filter(p, s) == s
    decreases |s|
  {
    if |s| > 0 {
      FilterAll(p, s[1..]);
    }
  }

  /** `s.any(p)`. */
  function Any<T>(p: T -> bool, s: seq<T>): (r: bool)
    ensures r <==> exists i :: 0 <= i < |s| && p(s[i])
  {
    if |s| == 0 then false
    else p(s[0]) || Any(p, s[1..])
  }

  /** The filter is empty exactly when no element satisfies the predicate. */
  lemma FilterEmptyIffNotAny<T>(p: T -> bool, s: seq<T>)
    ensures Filter(p, s) == [] <==> !Any(p, s)
  {
  }

  /** `s.reversed()`. */
  function Reverse<T>(s: seq<T>): (r: seq<T>)
    ensures |r| == |s|
    ensures forall k :: 0 <= k < |s| ==> r[k] == s[|s| - 1 - k]
  {
    if |s| == 0 then [] else Reverse(s[1..]) + [s[0]]
  }

  /** Reversal turns an append at the end into a prepend at the front. */
  lemma ReverseSnoc<T>(s: seq<T>, x: T)
    ensures Reverse(s + [x]) == [x] + Reverse(s)
  {
  }

  /** `s.map(f)`. */
  function Map<T, U>(f: T -> U, s: seq<T>): (r: seq<U>)
    ensures |r| == |s|
    ensures forall k :: 0 <= k < |s| ==> r[k] == f(s[k])
  {
    if |s| == 0 then [] else [f(s[0])] + Map(f, s[1..])
  }

  /** The position an element satisfying `p` takes in `Filter(p, s)`: the
      number of elements before it that satisfy `p`. */
  function Rank<T>(p: T -> bool, s: seq<T>, i: nat): (r: nat)
    requires i <= |s|
    ensures r <= i
  {
    |Filter(p, s[..i])|
  }

  /** `Filter` keeps the `i`-th element at position `Rank(p, s, i)`. */
  lemma {:induction false} FilterAt<T>(p: T -> bool, s: seq<T>, i: nat)
    requires i < |s| && p(s[i])
    ensures Rank(p, s, i) < |Filter(p, s)|
    ensures Filter(p, s)[Rank(p, s, i)] == s[i]
  {
    assert s == s[..i] + s[i..];
    FilterAppend(p, s[..i], s[i..]);
    assert s[i..] == [s[i]] + s[i + 1..];
    FilterAppend(p, [s[i]], s[i + 1..]);
    assert Filter(p, [s[i]]) == [s[i]];
  }

  /** Ranks past the head: the head counts once if it satisfies `p`. */
  lemma RankTail<T>(p: T -> bool, s: seq<T>, i: nat)
    requires 0 < i <= |s|
    ensures Rank(p, s, i) == (if p(s[0]) then 1 else 0) + Rank(p, s[1..], i - 1)
  {
    assert s[..i] == [s[0]] + s[1..][..i - 1];
    FilterAppend(p, [s[0]], s[1..][..i - 1]);
  }

  /** One step of `Filter`. */
  lemma FilterCons<T>(p: T -> bool, s: seq<T>)
    requires |s| > 0
    ensures Filter(p, s) == (if p(s[0]) then [s[0]] else []) + Filter(p, s[1..])
  {
  }
}
