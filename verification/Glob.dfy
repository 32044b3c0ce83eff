/**
 Wildcard matching of build targets: the greedy, single-backtrack loop of the
 build script, and the declarative relation it stands for.
 */
module Glob {

  const STAR := '*'

  predicate AllStars(p: string) {
    forall k :: 0 <= k < |p| ==> p[k] == STAR
  }

  /** The textbook relation: a star stands for any string, any other character for itself. */
  predicate Matches(p: string, t: string)
    decreases |p| + |t|
  {
    if p == [] then t == []
    else if p[0] == STAR then Matches(p[1..], t) || (t != [] && Matches(p, t[1..]))
    else t != [] && p[0] == t[0] && Matches(p[1..], t[1..])
  }

  /** What the loop decides: like `Matches`, but a star facing a literal star consumes just it. */
  predicate Greedy(p: string, t: string)
    decreases |t|, |p|, 0
  {
    if t == [] then AllStars(p)
    else if p == [] then false
    else if p[0] == t[0] then Greedy(p[1..], t[1..])
    else p[0] == STAR && Anywhere(p[1..], t)
  }

  /** Some suffix of `t` is accepted by `Greedy`: the reading of a wild star. */
  predicate Anywhere(p: string, t: string)
    decreases |t|, |p|, 1
  {
    Greedy(p, t) || (t != [] && Anywhere(p, t[1..]))
  }

  function Literals(s: string): nat {
    if s == [] then 0 else (if s[0] == STAR then 0 else 1) + Literals(s[1..])
  }

  // ----- the latest star alone is enough -----

  lemma {:induction false} AnywhereLater(p: string, t: string, k: nat)
    requires k <= |t| && Anywhere(p, t[k..])
    ensures Anywhere(p, t)
  {
    if k != 0 {
      assert t[1..][k-1..] == t[k..];
      AnywhereLater(p, t[1..], k - 1);
    } else {
      assert t[k..] == t;
    }
  }

  lemma {:induction false} AnywhereWitness(p: string, t: string) returns (k: nat)
    requires Anywhere(p, t)
    ensures k <= |t| && Greedy(p, t[k..])
  {
    if Greedy(p, t) {
      k := 0;
      assert t[0..] == t;
    } else {
      var k' := AnywhereWitness(p, t[1..]);
      k := k' + 1;
      assert t[1..][k'..] == t[k..];
    }
  }

  lemma {:induction false} LiteralsConcat(a: string, b: string)
    ensures Literals(a + b) == Literals(a) + Literals(b)
  {
    if a == [] {
      assert a + b == b;
    } else {
      assert (a + b)[1..] == a[1..] + b;
      LiteralsConcat(a[1..], b);
    }
  }

  lemma {:induction false} AllStarsHaveNoLiterals(p: string)
    requires AllStars(p)
    ensures Literals(p) == 0
  {
    if p == [] {
    } else {
      AllStarsHaveNoLiterals(p[1..]);
    }
  }

  /** Matching past a segment consumes at least as many literals as the segment has. */
  lemma {:induction false} PassSegment(seg: string, rest: string, t: string) returns (q: nat)
    requires Greedy(seg + rest, t)
    ensures q <= |t| && Greedy(rest, t[q..]) && Literals(t[..q]) >= Literals(seg)
    decreases |seg|
  {
    if seg == [] {
      q := 0;
      assert seg + rest == rest && t[0..] == t;
    } else if t == [] {
      q := 0;
      assert AllStars(seg) by { assert forall k :: 0 <= k < |seg| ==> seg[k] == (seg + rest)[k]; }
      assert AllStars(rest) by { assert forall k :: 0 <= k < |rest| ==> rest[k] == (seg + rest)[|seg| + k]; }
      AllStarsHaveNoLiterals(seg);
      assert t[0..] == [];
    } else {
      assert (seg + rest)[1..] == seg[1..] + rest;
      if seg[0] == t[0] {
        var q' := PassSegment(seg[1..], rest, t[1..]);
        q := q' + 1;
        assert t[1..][q'..] == t[q..];
        assert t[..q][1..] == t[1..][..q'];
      } else {
        var k := AnywhereWitness(seg[1..] + rest, t);
        var q' := PassSegment(seg[1..], rest, t[k..]);
        q := k + q';
        assert t[k..][q'..] == t[q..];
        assert t[..q] == t[..k] + t[k..][..q'];
        LiteralsConcat(t[..k], t[k..][..q']);
      }
    }
  }

  /** A shorter stretch of text that starts later holds strictly fewer literals. */
  lemma FewerLiterals(t: string, x: nat, k: nat, q: nat, i: nat)
    requires x < k <= q <= i <= |t| && t[x] != STAR
    ensures Literals(t[k..q]) < Literals(t[x..i])
  {
    assert t[x..i] == t[x..k] + (t[k..q] + t[q..i]);
    LiteralsConcat(t[x..k], t[k..q] + t[q..i]);
    LiteralsConcat(t[k..q], t[q..i]);
  }

  /** What a longer star still reaches, it reaches beyond the place that the literals after it were matched up to. */
  lemma LiteralsReached(p: string, t: string, y: nat, x: nat, j: nat, i: nat) returns (q: nat)
    requires y < j <= |p| && x <= i <= |t|
    requires p[y+1..j] == t[x..i]
    requires x < i ==> t[x] != STAR
    requires x < |t| && Anywhere(p[y+1..], t[x+1..])
    ensures i < q <= |t| && Greedy(p[j..], t[q..])
  {
    var seg, rest := p[y+1..j], p[j..];
    var k' := AnywhereWitness(p[y+1..], t[x+1..]);
    var k := x + 1 + k';
    assert t[x+1..][k'..] == t[k..];
    assert p[y+1..] == seg + rest;
    var q' := PassSegment(seg, rest, t[k..]);
    q := k + q';
    assert t[k..][q'..] == t[q..];
    assert t[k..][..q'] == t[k..q];
    if q <= i {
      FewerLiterals(t, x, k, q, i);
      assert false;
    }
  }

  /** A star matched against a suffix frees what follows it to start anywhere in that suffix or before. */
  lemma StarReachesBack(p: string, t: string, q: nat, i: nat)
    requires p != [] && p[0] == STAR && i <= q <= |t| && Greedy(p, t[q..])
    ensures Anywhere(p[1..], t[i..])
  {
    var n := if q < |t| && t[q] == STAR then q + 1 else q;
    assert Anywhere(p[1..], t[n..]) by {
      if q == |t| {
        assert forall m :: 0 <= m < |p[1..]| ==> p[1..][m] == STAR;
      } else {
        assert t[q..][1..] == t[q+1..];
      }
    }
    assert t[i..][n-i..] == t[n..];
    AnywhereLater(p[1..], t[i..], n - i);
  }

  /**
   Once a second star is reached at position `i`, whatever a longer first star
   could still reach is also reached by the second one.
   */
  lemma LatestStarSuffices(p: string, t: string, y: nat, x: nat, j: nat, i: nat)
    requires y < j < |p| && x <= i <= |t| && p[j] == STAR
    requires p[y+1..j] == t[x..i]
    requires x < i ==> t[x] != STAR
    requires x < |t| && Anywhere(p[y+1..], t[x+1..])
    ensures Anywhere(p[j+1..], t[i..])
  {
    var q := LiteralsReached(p, t, y, x, j, i);
    StarReachesBack(p[j..], t, q, i);
    assert p[j..][1..] == p[j+1..];
  }

  /** At the end of the text, no longer reading of the latest star can succeed. */
  lemma NoLongerStarAtEnd(p: string, t: string, y: nat, x: nat, j: nat)
    requires y < j <= |p| && x < |t| && p[y+1..j] == t[x..]
    requires t[x] != STAR
    ensures !Anywhere(p[y+1..], t[x+1..])
  {
    if Anywhere(p[y+1..], t[x+1..]) {
      assert t[x..] == t[x..|t|];
      var _ := LiteralsReached(p, t, y, x, j, |t|);
      assert false;
    }
  }

  // ----- the loop -----

  /** What is left to try: the present attempt, or a longer reading of the latest star. */
  ghost predicate Remaining(p: string, t: string, i: nat, j: nat, x: int, y: int)
    requires i <= |t| && j <= |p| && -1 <= x <= i && -1 <= y < j
  {
    || Greedy(p[j..], t[i..])
    || (0 <= x < |t| && Anywhere(p[y+1..], t[x+1..]))
  }

  /** The loop state: since the latest star only literal steps were taken, and none of them on a star first. */
  ghost predicate Consistent(p: string, t: string, i: int, j: int, x: int, y: int) {
    && 0 <= i <= |t| && 0 <= j <= |p| && -1 <= x <= i && -1 <= y < j
    && (x >= 0 <==> y >= 0)
    && (x >= 0 ==> p[y+1..j] == t[x..i])
    && (x >= 0 && y + 1 < |p| && p[y+1] == STAR ==> i == x < |t| && t[x] != STAR)
  }

  lemma LiteralStep(p: string, t: string, i: int, j: int, x: int, y: int)
    requires Consistent(p, t, i, j, x, y) && i < |t| && j < |p| && t[i] == p[j]
    ensures Consistent(p, t, i + 1, j + 1, x, y)
    ensures Remaining(p, t, i + 1, j + 1, x, y) == Remaining(p, t, i, j, x, y)
  {
    assert t[i..][1..] == t[i+1..] && p[j..][1..] == p[j+1..];
    if x >= 0 {
      assert p[y+1..j+1] == p[y+1..j] + [p[j]];
      assert t[x..i+1] == t[x..i] + [t[i]];
    }
  }

  lemma StarStep(p: string, t: string, i: int, j: int, x: int, y: int)
    requires Consistent(p, t, i, j, x, y) && i < |t| && j < |p| && t[i] != p[j] && p[j] == STAR
    ensures Consistent(p, t, i, j + 1, i, j)
    ensures Remaining(p, t, i, j + 1, i, j) == Remaining(p, t, i, j, x, y)
  {
    assert t[i..][1..] == t[i+1..] && p[j..][1..] == p[j+1..];
    assert Greedy(p[j..], t[i..]) == Anywhere(p[j+1..], t[i..]);
    assert Remaining(p, t, i, j + 1, i, j) == Anywhere(p[j+1..], t[i..]);
    if x >= 0 && Anywhere(p[y+1..], t[x+1..]) {
      assert x < i ==> t[x] == t[x..i][0] == p[y+1..j][0] == p[y+1];
      LatestStarSuffices(p, t, y, x, j, i);
    }
  }

  lemma BacktrackStep(p: string, t: string, i: int, j: int, x: int, y: int)
    requires Consistent(p, t, i, j, x, y) && i < |t| && x >= 0
    requires j < |p| ==> t[i] != p[j] && p[j] != STAR
    ensures Consistent(p, t, x + 1, y + 1, x + 1, y)
    ensures Remaining(p, t, x + 1, y + 1, x + 1, y) == Remaining(p, t, i, j, x, y)
  {
    assert !Greedy(p[j..], t[i..]);
    if y + 1 < |p| && p[y+1] == STAR {
      assert false;
    }
    if x + 1 < |t| {
      assert t[x+1..][1..] == t[x+2..];
    }
  }

  /** At the end of the text only stars may be left. */
  lemma AtEnd(p: string, t: string, j: int, x: int, y: int)
    requires Consistent(p, t, |t|, j, x, y)
    ensures Remaining(p, t, |t|, j, x, y) == AllStars(p[j..])
  {
    assert t[|t|..] == [];
    if 0 <= x < |t| {
      assert t[x..] == t[x..|t|];
      assert t[x] == t[x..|t|][0] == p[y+1..j][0] == p[y+1];
      NoLongerStarAtEnd(p, t, y, x, j);
    }
  }

  /**
   The loop of `match_one`, for every target and pattern. `x` and `y` are the
   source's backtrack point, -1 while no star has been crossed.
   */
  method MatchOne(target: string, pattern: string) returns (r: bool)
    ensures r == Greedy(pattern, target)
  {
    var l1, l2 := |target|, |pattern|;
    var i, j, x, y := 0, 0, -1, -1;
    assert target[0..] == target && pattern[0..] == pattern;
    while i < l1
      invariant Consistent(pattern, target, i, j, x, y)
      invariant Greedy(pattern, target) == Remaining(pattern, target, i, j, x, y)
      decreases l2 - y, l1 - x, l1 - i
    {
      if j < l2 && target[i] == pattern[j] {
        LiteralStep(pattern, target, i, j, x, y);
        i, j := i + 1, j + 1;
      } else if j < l2 && pattern[j] == STAR {
        StarStep(pattern, target, i, j, x, y);
        x, y, j := i, j, j + 1;
      } else if x >= 0 {
        BacktrackStep(pattern, target, i, j, x, y);
        x, i, j := x + 1, x + 1, y + 1;
      } else {
        return false;
      }
    }
    AtEnd(pattern, target, j, x, y);
    ghost var rest := AllStars(pattern[j..]);
    while j < l2 && pattern[j] == STAR
      invariant 0 <= j <= l2
      invariant rest == AllStars(pattern[j..])
    {
      StarsUnfold(pattern, j);
      j := j + 1;
    }
    r := j == l2;
    if j < l2 { StarsUnfold(pattern, j); }
  }

  lemma StarsUnfold(p: string, j: nat)
    requires j < |p|
    ensures AllStars(p[j..]) <==> p[j] == STAR && AllStars(p[j+1..])
  {
    assert p[j..] == [p[j]] + p[j+1..];
  }

  // ----- against the declarative relation -----

  lemma {:induction false} StarsMatchAnything(p: string, t: string)
    requires AllStars(p) && (p != [] || t == [])
    ensures Matches(p, t)
    decreases |p| + |t|
  {
    if t != [] { StarsMatchAnything(p, t[1..]); }
    else if p != [] { StarsMatchAnything(p[1..], t); }
  }

  lemma {:induction false} OnlyStarsMatchEmpty(p: string)
    ensures Matches(p, []) <==> AllStars(p)
  {
    if p == [] {
    } else {
      OnlyStarsMatchEmpty(p[1..]);
      assert AllStars(p) <==> p[0] == STAR && AllStars(p[1..]) by {
        assert p == [p[0]] + p[1..];
      }
    }
  }

  /** Soundness, for every pattern and every target. */
  lemma {:induction false} GreedyIsSound(p: string, t: string)
    requires Greedy(p, t)
    ensures Matches(p, t)
    decreases |t|, |p|, 0
  {
    if t == [] {
      OnlyStarsMatchEmpty(p);
    } else if p[0] == t[0] {
      GreedyIsSound(p[1..], t[1..]);
      if p[0] == STAR { StarAbsorbs(p, t); }
    } else {
      AnywhereIsSound(p[1..], t);
      assert p == [STAR] + p[1..];
    }
  }

  lemma StarAbsorbs(p: string, t: string)
    requires p != [] && p[0] == STAR && t != [] && Matches(p[1..], t[1..])
    ensures Matches(p, t)
  {
    assert Matches(p, t[1..]);
  }

  lemma {:induction false} AnywhereIsSound(p: string, t: string)
    requires Anywhere(p, t)
    ensures Matches([STAR] + p, t)
    decreases |t|, |p|, 1
  {
    assert ([STAR] + p)[1..] == p;
    if Greedy(p, t) {
      GreedyIsSound(p, t);
    } else {
      AnywhereIsSound(p, t[1..]);
    }
  }

  /** No star in the target, except perhaps as its very last character. */
  predicate NoInnerStar(t: string) {
    forall k :: 0 <= k < |t| - 1 ==> t[k] != STAR
  }

  lemma {:induction false} StarOnLastStar(p: string)
    requires Matches(p, [STAR])
    ensures p != [] && AllStars(p)
  {
    var t := [STAR];
    assert t[1..] == [];
    if p == [] {
    } else {
      if p[0] == STAR {
        if Matches(p[1..], t) { StarOnLastStar(p[1..]); } else { OnlyStarsMatchEmpty(p); }
      } else {
        assert false;
      }
      assert p == [p[0]] + p[1..];
    }
  }

  lemma {:induction false} GreedyIsComplete(p: string, t: string)
    requires NoInnerStar(t) && Matches(p, t)
    ensures Greedy(p, t)
    decreases |t|, |p|, 0
  {
    if t == [] {
      OnlyStarsMatchEmpty(p);
    } else if p[0] == t[0] {
      if p[0] == STAR {
        assert t == [STAR];
        StarOnLastStar(p);
      } else {
        GreedyIsComplete(p[1..], t[1..]);
      }
    } else {
      assert p == [STAR] + p[1..];
      AnywhereIsComplete(p[1..], t);
    }
  }

  lemma {:induction false} AnywhereIsComplete(p: string, t: string)
    requires NoInnerStar(t) && Matches([STAR] + p, t)
    ensures Anywhere(p, t)
    decreases |t|, |p|, 1
  {
    assert ([STAR] + p)[1..] == p;
    if Matches(p, t) {
      GreedyIsComplete(p, t);
    } else {
      AnywhereIsComplete(p, t[1..]);
    }
  }

  lemma {:induction false} LiteralPrefix(u: string, p: string, t: string)
    ensures Greedy(u + p, u + t) == Greedy(p, t)
    ensures Matches(p, t) ==> Matches(u + p, u + t)
  {
    if u == [] {
      assert u + p == p && u + t == t;
    } else {
      assert (u + p)[1..] == u[1..] + p && (u + t)[1..] == u[1..] + t;
      LiteralPrefix(u[1..], p, t);
      if Matches(p, t) && u[0] == STAR { StarAbsorbs(u + p, u + t); }
    }
  }

  /** The pattern on which the loop misses a match when a star sits at `k`, before the end. */
  lemma InnerStarIsMissed(t: string, k: nat)
    requires k < |t| - 1 && t[k] == STAR
    ensures Matches(t[..k] + [STAR], t) && !Greedy(t[..k] + [STAR], t)
  {
    var tail := t[k..];
    assert t == t[..k] + tail;
    LiteralPrefix(t[..k], [STAR], tail);
    StarsMatchAnything([STAR], tail);
    assert [STAR][1..] == [];
  }

  /** Exactly which targets the loop decides correctly, whatever the pattern. */
  lemma CorrectOnTarget(t: string)
    ensures (forall p :: Greedy(p, t) == Matches(p, t)) <==> NoInnerStar(t)
  {
    if NoInnerStar(t) {
      forall p ensures Greedy(p, t) == Matches(p, t) {
        if Greedy(p, t) { GreedyIsSound(p, t); }
        if Matches(p, t) { GreedyIsComplete(p, t); }
      }
    } else {
      var k :| 0 <= k < |t| - 1 && t[k] == STAR;
      InnerStarIsMissed(t, k);
    }
  }

  /** A pattern equal to the target always matches, so the equality test of `match` is redundant. */
  lemma EqualIsAccepted(t: string)
    ensures Greedy(t, t)
  {
    assert t + [] == t;
    LiteralPrefix(t, [], []);
  }

  method MatchAny(target: string, patterns: seq<string>) returns (r: bool)
    ensures r <==> exists k :: 0 <= k < |patterns| && Greedy(patterns[k], target)
    ensures r ==> exists k :: 0 <= k < |patterns| && Matches(patterns[k], target)
    ensures NoInnerStar(target) && (exists k :: 0 <= k < |patterns| && Matches(patterns[k], target)) ==> r
  {
    for n := 0 to |patterns|
      invariant forall k :: 0 <= k < n ==> !Greedy(patterns[k], target)
    {
      var one := MatchOne(target, patterns[n]);
      EqualIsAccepted(target);
      if target == patterns[n] || one {
        GreedyIsSound(patterns[n], target);
        return true;
      }
    }
    CorrectOnTarget(target);
    return false;
  }
}
