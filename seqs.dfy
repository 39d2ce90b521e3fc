/** `Array.prototype.filter` and `slice(0, n)` on sequences, with what they keep. */
module Seqs {

  /** The elements of `s` that satisfy `p`, in their order in `s`. Defined from the back so
      that it follows a loop that appends as it goes. */
  function Filter<T>(p: T -> bool, s: seq<T>): (r: seq<T>)
    ensures |r| <= |s|
    decreases |s|
  {
    if |s| == 0 then []
    else Filter(p, s[..|s| - 1]) + (if p(s[|s| - 1]) then [s[|s| - 1]] else [])
  }

  /** The positions of `s` whose element satisfies `p`, in increasing order. */
  ghost function Positions<T>(p: T -> bool, s: seq<T>): seq<int>
    decreases |s|
  {
    if |s| == 0 then []
    else Positions(p, s[..|s| - 1]) + (if p(s[|s| - 1]) then [|s| - 1] else [])
  }

  function Take<T>(s: seq<T>, n: nat): (r: seq<T>)
    ensures |r| == if |s| <= n then |s| else n
    ensures r == s[..|r|]
  {
    if |s| <= n then s else s[..n]
  }

  /** `Filter` keeps exactly the positions whose element satisfies `p`, each once and in
      increasing order: the result is an order-preserving subsequence of `s` that leaves out
      precisely the elements that fail `p`. */
  lemma {:induction false} FilterAtPositions<T>(p: T -> bool, s: seq<T>)
    ensures var pos, r := Positions(p, s), Filter(p, s);
      |pos| == |r| &&
      (forall k :: 0 <= k < |pos| ==> 0 <= pos[k] < |s| && r[k] == s[pos[k]]) &&
      (forall k1, k2 :: 0 <= k1 < k2 < |pos| ==> pos[k1] < pos[k2]) &&
      (forall i :: 0 <= i < |s| ==> (i in pos <==> p(s[i])))
    decreases |s|
  {
    if |s| > 0 {
      var s' := s[..|s| - 1];
      FilterAtPositions(p, s');
      assert forall i :: 0 <= i < |s'| ==> s'[i] == s[i];
    }
  }

  /** What `Filter` keeps comes from `s` and satisfies `p`. */
  lemma {:induction false} FilterMembers<T>(p: T -> bool, s: seq<T>)
    ensures forall x :: x in Filter(p, s) ==> x in s && p(x)
    decreases |s|
  {
    if |s| > 0 {
      FilterMembers(p, s[..|s| - 1]);
    }
  }

  /** `Filter` keeps every occurrence of an element that satisfies `p` and none of one that
      does not, so no element is duplicated. */
  lemma {:induction false} FilterCount<T>(p: T -> bool, s: seq<T>, x: T)
    ensures multiset(Filter(p, s))[x] == if p(x) then multiset(s)[x] else 0
    decreases |s|
  {
    if |s| > 0 {
      var s' := s[..|s| - 1];
      FilterCount(p, s', x);
      assert s == s' + [s[|s| - 1]];
    }
  }

  lemma {:induction false} FilterConcat<T>(p: T -> bool, a: seq<T>, b: seq<T>)
    ensures Filter(p, a + b) == Filter(p, a) + Filter(p, b)
    decreases |b|
  {
    if |b| == 0 {
      assert a + b == a;
    } else {
      var b' := b[..|b| - 1];
      assert (a + b)[..|a + b| - 1] == a + b';
      FilterConcat(p, a, b');
    }
  }

  lemma FilterEmpty<T>(p: T -> bool, s: seq<T>)
    ensures Filter(p, s) == [] <==> forall i :: 0 <= i < |s| ==> !p(s[i])
  {
    FilterAtPositions(p, s);
    if Filter(p, s) != [] {
      assert Positions(p, s)[0] in Positions(p, s);
    }
  }

  lemma {:induction false} FilterAll<T>(p: T -> bool, s: seq<T>)
    requires forall i :: 0 <= i < |s| ==> p(s[i])
    ensures Filter(p, s) == s
    decreases |s|
  {
    if |s| > 0 {
      var s' := s[..|s| - 1];
      FilterAll(p, s');
      assert s == s' + [s[|s| - 1]];
    }
  }

  lemma {:induction false} FilterNone<T>(p: T -> bool, s: seq<T>)
    requires forall i :: 0 <= i < |s| ==> !p(s[i])
    ensures Filter(p, s) == []
    decreases |s|
  {
    if |s| > 0 {
      FilterNone(p, s[..|s| - 1]);
    }
  }
}
