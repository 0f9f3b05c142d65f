/**
 * The Fisher-Yates shuffle of `shuffleArray` (script.js): copy the input,
 * then for i from the last index down to 1 swap position i with a position
 * j, 0 <= j <= i, drawn at random.
 *
 * The random draw is a parameter: `picks[i]` is the j the loop drew when it
 * was at index i (picks[0] is never used). `ValidPicks` says every draw lies
 * in the range `Math.floor(Math.random() * (i + 1))` can produce; draws
 * beyond the n-th are never used.
 */
module Shuffle {

  /** The draws a shuffle of n elements may make. */
  predicate ValidPicks(picks: seq<nat>, n: nat) {
    n <= |picks| && forall i | 0 <= i < n :: picks[i] <= i
  }

  /** No element occurs twice. */
  predicate Distinct<T(==)>(s: seq<T>) {
    forall i, j | 0 <= i < j < |s| :: s[i] != s[j]
  }

  /** `s` with the elements at positions i and j exchanged. */
  function Swap<T>(s: seq<T>, i: nat, j: nat): (r: seq<T>)
    requires i < |s| && j < |s|
    ensures |r| == |s|
  {
    var t := s[i];
    s[i := s[j]][j := t]
  }

  /** A swap rearranges its input. */
  lemma SwapPermutes<T>(s: seq<T>, i: nat, j: nat)
    requires i < |s| && j < |s|
    ensures multiset(Swap(s, i, j)) == multiset(s)
  {
    var t := s[i];
    assert Swap(s, i, j) == s[i := s[j]][j := t];
  }

  /**
   * The outcome of the shuffle of `s` under the draws `picks`: the first
   * iteration swaps the last position with position picks[n-1], which then
   * keeps its element; the remaining iterations shuffle the first n - 1
   * positions in the same way.
   */
  function FisherYates<T>(s: seq<T>, picks: seq<nat>): (r: seq<T>)
    requires ValidPicks(picks, |s|)
    ensures |r| == |s|
    decreases |s|
  {
    if |s| == 0 then []
    else
      var n := |s|;
      var s1 := Swap(s, n - 1, picks[n - 1]);
      FisherYates(s1[..n - 1], picks) + [s1[n - 1]]
  }

  /** The shuffle rearranges its input: it neither loses nor adds an element. */
  lemma {:induction false} FisherYatesPermutes<T>(s: seq<T>, picks: seq<nat>)
    requires ValidPicks(picks, |s|)
    ensures multiset(FisherYates(s, picks)) == multiset(s)
    decreases |s|
  {
    if |s| > 0 {
      var n := |s|;
      var s1 := Swap(s, n - 1, picks[n - 1]);
      var front := s1[..n - 1];
      var last := s1[n - 1];
      var r := FisherYates(front, picks);
      FisherYatesPermutes(front, picks);
      SwapPermutes(s, n - 1, picks[n - 1]);
      assert FisherYates(s, picks) == r + [last];
      assert multiset(r + [last]) == multiset(r) + multiset{last};
      assert s1 == front + [last];
      assert multiset(front + [last]) == multiset(front) + multiset{last};
    }
  }

  /** The shuffle of s reads only the first |s| draws. */
  lemma {:induction false} FisherYatesUsesFirstDraws<T>(s: seq<T>, p: seq<nat>, q: seq<nat>)
    requires ValidPicks(p, |s|) && |s| <= |q| && p[..|s|] == q[..|s|]
    ensures ValidPicks(q, |s|) && FisherYates(s, p) == FisherYates(s, q)
    decreases |s|
  {
    var n := |s|;
    forall i | 0 <= i < n ensures q[i] == p[i] {
      assert q[i] == q[..n][i];
    }
    if n > 0 {
      var s1 := Swap(s, n - 1, p[n - 1]);
      assert p[..n - 1] == q[..n - 1] by {
        assert p[..n - 1] == p[..n][..n - 1];
        assert q[..n - 1] == q[..n][..n - 1];
      }
      FisherYatesUsesFirstDraws(s1[..n - 1], p, q);
    }
  }

  /**
   * The shuffle itself, in place on a fresh array that holds a copy of the
   * input; the input is a value and so is left as it was.
   */
  method ShuffleArray<T>(input: seq<T>, picks: seq<nat>) returns (shuffled: seq<T>)
    requires ValidPicks(picks, |input|)
    ensures shuffled == FisherYates(input, picks)
    ensures |shuffled| == |input| && multiset(shuffled) == multiset(input)
  {
    var a := new T[|input|](k requires 0 <= k < |input| => input[k]);
    var i := a.Length - 1;
    assert a[..] == input;
    assert a.Length > 0 ==> a[..i + 1] == a[..] && a[i + 1..] == [];
    while i > 0
      invariant -1 <= i < a.Length
      invariant a.Length == 0 <==> i == -1
      invariant i >= 0 ==> FisherYates(input, picks) == FisherYates(a[..i + 1], picks) + a[i + 1..]
      decreases i
    {
      var j := picks[i];
      ghost var before := a[..];
      var t := a[i];
      a[i] := a[j];
      a[j] := t;
      assert a[..] == before[i := before[j]][j := t];
      ShuffleStep(before, picks, i);
      i := i - 1;
    }
    shuffled := a[..];
    if a.Length > 0 {
      var first := a[..1];
      assert first == [a[0]];
      assert FisherYates(first, picks) == first;
      assert shuffled == first + a[1..];
    }
    FisherYatesPermutes(input, picks);
  }

  /** One iteration of the loop at index i, stated on the array's contents. */
  lemma ShuffleStep<T>(b: seq<T>, picks: seq<nat>, i: nat)
    requires 0 < i < |b| && ValidPicks(picks, |b|)
    ensures var b1 := Swap(b, i, picks[i]);
      FisherYates(b[..i + 1], picks) + b[i + 1..] == FisherYates(b1[..i], picks) + b1[i..]
  {
    var b1 := Swap(b, i, picks[i]);
    var u := b[..i + 1];
    var u1 := Swap(u, i, picks[i]);
    assert u1 == b1[..i + 1];
    assert u1[..i] == b1[..i];
    assert FisherYates(u, picks) == FisherYates(u1[..i], picks) + [u1[i]];
    var tail := b1[i + 1..];
    assert tail == b[i + 1..];
    assert b1[i..] == [b1[i]] + tail;
  }

  /** Two rearrangements of each other that end alike still are after dropping the end. */
  lemma DropLastPermutes<T>(a: seq<T>, b: seq<T>)
    requires |a| == |b| > 0 && a[|a| - 1] == b[|b| - 1]
    requires multiset(a) == multiset(b)
    ensures multiset(a[..|a| - 1]) == multiset(b[..|b| - 1])
  {
    var n := |a|;
    assert a == a[..n - 1] + [a[n - 1]];
    assert b == b[..n - 1] + [b[n - 1]];
    assert multiset(a[..n - 1]) == multiset(a) - multiset{a[n - 1]};
    assert multiset(b[..n - 1]) == multiset(b) - multiset{b[n - 1]};
  }

  /**
   * A first draw that brings the last element of t into place, leaving
   * the first n - 1 positions a rearrangement of the rest of t.
   */
  lemma FirstDrawFor<T>(s: seq<T>, t: seq<T>) returns (j: nat)
    requires |s| > 0 && multiset(s) == multiset(t)
    ensures |t| == |s| && j < |s| && s[j] == t[|t| - 1]
    ensures multiset(Swap(s, |s| - 1, j)[..|s| - 1]) == multiset(t[..|t| - 1])
  {
    assert |s| == |multiset(s)| == |t|;
    var n := |s|;
    var x := t[n - 1];
    assert x in multiset(t);
    assert x in s;
    var k := IndexOf(s, x);
    j := k;
    var s1 := Swap(s, n - 1, j);
    SwapPermutes(s, n - 1, j);
    assert s1[n - 1] == x;
    DropLastPermutes(s1, t);
  }

  /**
   * Every rearrangement of the input is a possible outcome of the shuffle:
   * `picks` are draws that produce `t`.
   */
  lemma {:induction false} EveryPermutationReachable<T>(s: seq<T>, t: seq<T>) returns (picks: seq<nat>)
    requires multiset(s) == multiset(t)
    ensures |picks| == |s| && ValidPicks(picks, |s|) && FisherYates(s, picks) == t
    decreases |s|
  {
    if |s| == 0 {
      assert |t| == |multiset(t)| == 0;
      picks := [];
    } else {
      var n := |s|;
      var j := FirstDrawFor(s, t);
      var front, tfront := Swap(s, n - 1, j)[..n - 1], t[..n - 1];
      var rest := EveryPermutationReachable(front, tfront);
      picks := rest + [j];
      assert ValidPicks(picks, n);
      assert picks[..n - 1] == rest[..n - 1];
      FisherYatesUsesFirstDraws(front, rest, picks);
      assert FisherYates(s, picks) == tfront + [t[n - 1]];
      assert t == tfront + [t[n - 1]];
    }
  }

  /**
   * On distinct elements different draws give different outcomes. With
   * EveryPermutationReachable this makes the draws and the orders of the
   * input correspond one to one, so uniform draws give a uniform order.
   */
  lemma {:induction false} DrawsDetermined<T>(s: seq<T>, p1: seq<nat>, p2: seq<nat>)
    requires Distinct(s) && ValidPicks(p1, |s|) && ValidPicks(p2, |s|)
    requires FisherYates(s, p1) == FisherYates(s, p2)
    ensures p1[..|s|] == p2[..|s|]
    decreases |s|
  {
    var n := |s|;
    if n > 0 {
      var j1, j2 := p1[n - 1], p2[n - 1];
      var front1 := Swap(s, n - 1, j1)[..n - 1];
      var front2 := Swap(s, n - 1, j2)[..n - 1];
      var r1, r2 := FisherYates(front1, p1), FisherYates(front2, p2);
      assert FisherYates(s, p1) == r1 + [s[j1]];
      assert FisherYates(s, p2) == r2 + [s[j2]];
      assert s[j1] == s[j2] && r1 == r2 by {
        assert (r1 + [s[j1]])[n - 1] == s[j1];
        assert (r2 + [s[j2]])[n - 1] == s[j2];
        assert (r1 + [s[j1]])[..n - 1] == r1;
        assert (r2 + [s[j2]])[..n - 1] == r2;
      }
      assert j1 == j2;
      SwapFrontDistinct(s, j1);
      DrawsDetermined(front1, p1, p2);
      assert p1[..n] == p1[..n - 1] + [j1];
      assert p2[..n] == p2[..n - 1] + [j2];
    }
  }

  /** Swapping keeps the elements apart; so does dropping the last one. */
  lemma SwapFrontDistinct<T>(s: seq<T>, j: nat)
    requires Distinct(s) && j < |s|
    ensures Distinct(Swap(s, |s| - 1, j)[..|s| - 1])
  {
    var n := |s|;
    var front := Swap(s, n - 1, j)[..n - 1];
    forall a, b | 0 <= a < b < n - 1 ensures front[a] != front[b] {
      var sa := if a == j then n - 1 else a;
      var sb := if b == j then n - 1 else b;
      assert front[a] == s[sa] && front[b] == s[sb] && sa != sb;
    }
  }

  /**
   * Position of the first occurrence of x in s, or -1 when x is absent
   * (JavaScript's `Array.prototype.indexOf`).
   */
  function IndexOf<T(==)>(s: seq<T>, x: T): (r: int)
    ensures -1 <= r < |s|
    ensures r == -1 <==> x !in s
    ensures 0 <= r ==> s[r] == x && x !in s[..r]
  {
    if |s| == 0 then -1
    else if s[0] == x then 0
    else
      var k := IndexOf(s[1..], x);
      if k == -1 then -1 else k + 1
  }
}
