/** ASCII models of the string operations the search uses: `toLowerCase`, `trim` and
    `includes`. */
module Text {

  /** The ASCII characters that `trim` strips. */
  predicate IsSpace(c: char) {
    c == ' ' || c == '\t' || c == '\n' || c == '\r' || c == '\U{000B}' || c == '\U{000C}'
  }

  predicate AllSpace(s: string) {
    forall i :: 0 <= i < |s| ==> IsSpace(s[i])
  }

  function LowerChar(c: char): char {
    if 'A' <= c <= 'Z' then (c as int + 32) as char else c
  }

  /** `toLowerCase`, restricted to ASCII letters. */
  function ToLower(s: string): string {
    seq(|s|, i requires 0 <= i < |s| => LowerChar(s[i]))
  }

  /** Leading whitespace removed; the result does not start with whitespace. */
  function TrimStart(s: string): (r: string)
    ensures |r| <= |s|
    ensures r == [] || !IsSpace(r[0])
  {
    if |s| > 0 && IsSpace(s[0]) then TrimStart(s[1..]) else s
  }

  /** Trailing whitespace removed; the result does not end with whitespace. */
  function TrimEnd(s: string): (r: string)
    ensures |r| <= |s|
    ensures r == [] || !IsSpace(r[|r| - 1])
  {
    if |s| > 0 && IsSpace(s[|s| - 1]) then TrimEnd(s[..|s| - 1]) else s
  }

  /** `trim`: whitespace removed at both ends. */
  function Trim(s: string): string
  {
    TrimEnd(TrimStart(s))
  }

  predicate OccursAt(s: string, sub: string, i: int) {
    0 <= i && i + |sub| <= |s| && s[i..i + |sub|] == sub
  }

  /** `s.includes(sub)`: `sub` is a contiguous piece of `s`. */
  predicate Contains(s: string, sub: string) {
    exists i | 0 <= i <= |s| - |sub| :: OccursAt(s, sub, i)
  }

  /** `TrimStart` cuts off a prefix made of whitespace only. */
  lemma {:induction false} TrimStartIsSuffix(s: string)
    ensures var k := |s| - |TrimStart(s)|;
      TrimStart(s) == s[k..] && AllSpace(s[..k])
    decreases |s|
  {
    if |s| > 0 && IsSpace(s[0]) {
      TrimStartIsSuffix(s[1..]);
      var k := |s| - |TrimStart(s)|;
      assert s[1..][k - 1..] == s[k..];
      assert forall i :: 1 <= i < k ==> s[..k][i] == s[1..][..k - 1][i - 1];
    }
  }

  /** `TrimEnd` cuts off a suffix made of whitespace only. */
  lemma {:induction false} TrimEndIsPrefix(s: string)
    ensures var n := |TrimEnd(s)|;
      TrimEnd(s) == s[..n] && AllSpace(s[n..])
    decreases |s|
  {
    if |s| > 0 && IsSpace(s[|s| - 1]) {
      TrimEndIsPrefix(s[..|s| - 1]);
      var n := |TrimEnd(s)|;
      assert s[..|s| - 1][..n] == s[..n];
      assert forall i :: 0 <= i < |s| - 1 - n ==> s[n..][i] == s[..|s| - 1][n..][i];
    }
  }

  /** `trim` keeps one contiguous piece of its input, starting and ending with a
      non-whitespace character, and cuts off only whitespace around it. */
  lemma TrimIsMiddle(s: string)
    ensures var r := Trim(s); var k := |s| - |TrimStart(s)|;
      k + |r| <= |s| && r == s[k..k + |r|] &&
      AllSpace(s[..k]) && AllSpace(s[k + |r|..]) &&
      (r == [] || (!IsSpace(r[0]) && !IsSpace(r[|r| - 1])))
  {
    var t := TrimStart(s);
    var k := |s| - |t|;
    TrimStartIsSuffix(s);
    TrimEndIsPrefix(t);
    var r := Trim(s);
    var n := |r|;
    assert r == t[..n];
    forall i | 0 <= i < n ensures r[i] == s[k + i] {
      assert r[i] == t[i] == s[k..][i];
    }
    assert r == s[k..k + n];
    var tail := s[k + n..];
    forall i | 0 <= i < |tail| ensures IsSpace(tail[i]) {
      assert tail[i] == t[n..][i];
    }
  }

  lemma LowerCharKeepsSpace(c: char)
    ensures IsSpace(LowerChar(c)) <==> IsSpace(c)
  {
  }

  lemma {:induction false} ToLowerIdempotent(s: string)
    ensures ToLower(ToLower(s)) == ToLower(s)
  {
    assert forall i :: 0 <= i < |s| ==> LowerChar(LowerChar(s[i])) == LowerChar(s[i]);
  }

  /** Lowercasing and trimming commute, because lowercasing maps whitespace to whitespace
      and everything else to something else. */
  lemma {:induction false} TrimStartToLower(s: string)
    ensures ToLower(TrimStart(s)) == TrimStart(ToLower(s))
    decreases |s|
  {
    var t := ToLower(s);
    if |s| > 0 {
      assert t[0] == LowerChar(s[0]);
      LowerCharKeepsSpace(s[0]);
      if IsSpace(s[0]) {
        assert TrimStart(t) == TrimStart(t[1..]);
        assert t[1..] == ToLower(s[1..]);
        TrimStartToLower(s[1..]);
      } else {
        assert TrimStart(t) == t;
      }
    }
  }

  lemma {:induction false} TrimEndToLower(s: string)
    ensures ToLower(TrimEnd(s)) == TrimEnd(ToLower(s))
    decreases |s|
  {
    var t := ToLower(s);
    if |s| > 0 {
      assert t[|s| - 1] == LowerChar(s[|s| - 1]);
      LowerCharKeepsSpace(s[|s| - 1]);
      if IsSpace(s[|s| - 1]) {
        assert TrimEnd(t) == TrimEnd(t[..|s| - 1]);
        assert t[..|s| - 1] == ToLower(s[..|s| - 1]);
        TrimEndToLower(s[..|s| - 1]);
      } else {
        assert TrimEnd(t) == t;
      }
    }
  }

  lemma TrimToLower(s: string)
    ensures ToLower(Trim(s)) == Trim(ToLower(s))
  {
    TrimStartToLower(s);
    TrimEndToLower(TrimStart(s));
  }

  /** Whitespace in front of a string does not change what `TrimStart` leaves. */
  lemma {:induction false} TrimStartPadded(p: string, s: string)
    requires AllSpace(p)
    ensures TrimStart(p + s) == TrimStart(s)
    decreases |p|
  {
    if |p| > 0 {
      assert (p + s)[0] == p[0];
      assert (p + s)[1..] == p[1..] + s;
      TrimStartPadded(p[1..], s);
    } else {
      assert p + s == s;
    }
  }

  /** Whitespace behind a string does not change what `TrimEnd` leaves. */
  lemma {:induction false} TrimEndPadded(s: string, p: string)
    requires AllSpace(p)
    ensures TrimEnd(s + p) == TrimEnd(s)
    decreases |p|
  {
    if |p| > 0 {
      assert (s + p)[|s + p| - 1] == p[|p| - 1];
      assert (s + p)[..|s + p| - 1] == s + p[..|p| - 1];
      TrimEndPadded(s, p[..|p| - 1]);
    } else {
      assert s + p == s;
    }
  }

  /** `TrimStart` leaves a string of only whitespace empty. */
  lemma TrimStartAllSpace(s: string)
    requires AllSpace(s)
    ensures TrimStart(s) == []
  {
  }

  /** Trailing whitespace survives `TrimStart` untouched unless the whole string is
      whitespace. */
  lemma {:induction false} TrimStartAppend(s: string, p: string)
    requires AllSpace(p)
    ensures TrimStart(s + p) == if AllSpace(s) then [] else TrimStart(s) + p
    decreases |s|
  {
    if |s| == 0 {
      assert s + p == p;
      TrimStartAllSpace(p);
    } else {
      assert (s + p)[0] == s[0];
      if IsSpace(s[0]) {
        assert (s + p)[1..] == s[1..] + p;
        TrimStartAppend(s[1..], p);
        assert AllSpace(s) <==> AllSpace(s[1..]);
      }
    }
  }

  /** `trim` ignores any whitespace added at either end. */
  lemma TrimPadded(p1: string, s: string, p2: string)
    requires AllSpace(p1) && AllSpace(p2)
    ensures Trim(p1 + s + p2) == Trim(s)
  {
    assert p1 + s + p2 == p1 + (s + p2);
    TrimStartPadded(p1, s + p2);
    TrimStartAppend(s, p2);
    if AllSpace(s) {
      TrimStartAllSpace(s);
    } else {
      TrimEndPadded(TrimStart(s), p2);
    }
  }

  /** A string cannot contain a piece that has a character the string lacks. */
  lemma MissingCharNotContained(s: string, sub: string, c: char)
    requires c in sub && c !in s
    ensures !Contains(s, sub)
  {
  }

  /** A string cannot contain a longer piece. */
  lemma LongerNotContained(s: string, sub: string)
    requires |sub| > |s|
    ensures !Contains(s, sub)
  {
  }

  /** Every string contains itself. */
  lemma ContainsSelf(s: string)
    ensures Contains(s, s)
  {
    assert OccursAt(s, s, 0);
  }
}
