/**
 Splitting a command line into tokens, as the remote shell does: words end at a
 space, quoted tokens at a quote, and a token that was opened and not closed is
 lost. What stands between quotes, and exactly which lists of tokens, joined by
 single spaces, are split back into the tokens they were made of.
 */
module Tokenizer {

  const SPACE := ' '
  const QUOTE := '"'
  /** The position at which a quoted token takes two characters together. */
  const ESCAPE_POSITION := 92

  function WordEnd(line: string, now: nat): (k: nat)
    requires now <= |line|
    ensures now <= k <= |line| && (k < |line| ==> line[k] == SPACE)
    decreases |line| - now
  {
    if now < |line| && line[now] != SPACE then WordEnd(line, now + 1) else now
  }

  datatype QuotedToken = QuotedToken(text: string, next: int, closed: bool)

  /** A token whose opening quote has been read; without a closing quote it is lost. */
  function Quoted(line: string, now: nat): (q: QuotedToken)
    requires now <= |line|
    ensures now <= q.next <= |line|
    decreases |line| - now
  {
    if now == |line| then QuotedToken("", now, false)
    else if line[now] == QUOTE then QuotedToken("", now + 1, true)
    else if now == ESCAPE_POSITION && now + 1 < |line| then
      var q := Quoted(line, now + 2); q.(text := [line[now], line[now+1]] + q.text)
    else
      var q := Quoted(line, now + 1); q.(text := [line[now]] + q.text)
  }

  /** What one pass of the outer loop adds, and where it stops. */
  datatype Pass = Pass(added: seq<string>, next: int)

  function OnePass(line: string, now: nat): (p: Pass)
    requires now < |line|
    ensures now < p.next <= |line|
    decreases |line| - now
  {
    if line[now] == SPACE then
      if now + 1 == |line| then Pass([], now + 1) else OnePass(line, now + 1)
    else if line[now] == QUOTE then
      var q := Quoted(line, now + 1);
      Pass(if q.closed then [q.text] else [], q.next)
    else
      var end := WordEnd(line, now + 1);
      Pass([line[now..end]], end)
  }

  function Tokens(line: string, now: nat): seq<string>
    requires now <= |line|
    decreases |line| - now
  {
    if now == |line| then [] else
      var p := OnePass(line, now);
      p.added + Tokens(line, p.next)
  }

  /** The loop at the top of executeCommandRemotely. */
  method Tokenize(line: string) returns (cmds: seq<string>)
    ensures cmds == Tokens(line, 0)
  {
    var n := |line|;
    var now := 0;
    cmds := [];
    while now < n
      invariant 0 <= now <= n
      invariant cmds + Tokens(line, now) == Tokens(line, 0)
      decreases n - now
    {
      ghost var p := OnePass(line, now);
      AppendIsAssociative(cmds, p.added, Tokens(line, p.next));
      now := SkipLoop(line, now);
      if now == n { break; }
      if line[now] == QUOTE {
        var token, next, closed := QuotedLoop(line, now + 1);
        now := next;
        if closed { cmds := cmds + [token]; }
      } else {
        var token, end := WordLoop(line, now);
        now := end;
        cmds := cmds + [token];
      }
    }
  }

  lemma AppendIsAssociative<T>(a: seq<T>, b: seq<T>, c: seq<T>)
    ensures a + (b + c) == (a + b) + c && a + [] == a
  {
  }

  method SkipLoop(line: string, start: nat) returns (now: nat)
    requires start < |line|
    ensures start <= now <= |line|
    ensures OnePass(line, start) == if now < |line| then OnePass(line, now) else Pass([], |line|)
    ensures now < |line| ==> line[now] != SPACE
  {
    now := start;
    while now < |line| && line[now] == SPACE
      invariant start <= now <= |line|
      invariant OnePass(line, start) == if now < |line| then OnePass(line, now) else Pass([], |line|)
    {
      now := now + 1;
    }
  }

  method WordLoop(line: string, start: nat) returns (token: string, now: nat)
    requires start < |line| && line[start] != SPACE
    ensures now == WordEnd(line, start + 1) && token == line[start..now]
  {
    token, now := "", start;
    while now < |line| && line[now] != SPACE
      invariant start <= now <= |line| && token == line[start..now]
      invariant WordEnd(line, start) == WordEnd(line, now)
    {
      token := token + [line[now]];
      now := now + 1;
    }
  }

  method QuotedLoop(line: string, start: nat) returns (token: string, now: nat, closed: bool)
    requires start <= |line|
    ensures QuotedToken(token, now, closed) == Quoted(line, start)
  {
    token, now, closed := "", start, false;
    while now < |line|
      invariant start <= now <= |line| && !closed
      invariant Prefixed(token, Quoted(line, now)) == Quoted(line, start)
      decreases |line| - now
    {
      QuotedStep(line, now, token);
      if line[now] == QUOTE {
        now, closed := now + 1, true;
        return;
      } else if now == ESCAPE_POSITION {
        token, now := token + [line[now]], now + 1;
        if now < |line| {
          token, now := token + [line[now]], now + 1;
        }
      } else {
        token, now := token + [line[now]], now + 1;
      }
    }
  }

  function Prefixed(s: string, q: QuotedToken): QuotedToken {
    q.(text := s + q.text)
  }

  lemma QuotedStep(line: string, now: nat, token: string)
    requires now < |line|
    ensures Prefixed(token, Quoted(line, now)) ==
            if line[now] == QUOTE then QuotedToken(token, now + 1, true)
            else if now == ESCAPE_POSITION && now + 1 < |line|
              then Prefixed(token + [line[now]] + [line[now + 1]], Quoted(line, now + 2))
            else Prefixed(token + [line[now]], Quoted(line, now + 1))
  {
    if now == ESCAPE_POSITION && now + 1 < |line| {
      var rest := Quoted(line, now + 2).text;
      assert token + ([line[now], line[now + 1]] + rest) == token + [line[now]] + [line[now + 1]] + rest;
    } else {
      AppendIsAssociative(token, [line[now]], Quoted(line, now + 1).text);
    }
  }

  // ----- quoted tokens -----

  /** A quote among these positions, other than one that position 92 takes along. */
  predicate QuoteIn(line: string, from: nat, to: nat)
    requires to <= |line|
  {
    exists k :: from <= k < to && line[k] == QUOTE && !(k == 93 && from <= 92)
  }

  ghost predicate AllBetweenQuotes(line: string, now: nat, q: QuotedToken)
    requires now <= |line|
  {
    if q.closed
    then now < q.next <= |line| && q.text == line[now..q.next-1] && line[q.next-1] == QUOTE
         && !(q.next - 1 == 93 && now <= 92) && !QuoteIn(line, now, q.next - 1)
    else q.next == |line| && q.text == line[now..|line|] && !QuoteIn(line, now, |line|)
  }

  /**
   A quoted token is all that stands between its quotes, nothing left out: it ends
   at the next quote, not counting one at position 93 if the token reaches over
   position 92. Without such a quote it reaches to the end and is lost.
   */
  lemma {:induction false} QuotedIs(line: string, now: nat)
    requires now <= |line|
    ensures AllBetweenQuotes(line, now, Quoted(line, now))
    decreases |line| - now
  {
    if now == |line| || line[now] == QUOTE {
    } else if now == ESCAPE_POSITION && now + 1 < |line| {
      QuotedIs(line, now + 2);
      TwoMore(line, now, Quoted(line, now + 2));
    } else {
      QuotedIs(line, now + 1);
      OneMoreChar(line, now, Quoted(line, now + 1));
    }
  }

  lemma TwoMore(line: string, now: nat, q: QuotedToken)
    requires now == 92 && now + 2 <= |line| && line[now] != QUOTE && AllBetweenQuotes(line, now + 2, q)
    ensures AllBetweenQuotes(line, now, q.(text := [line[now], line[now+1]] + q.text))
  {
    var end := if q.closed then q.next - 1 else |line|;
    NoQuoteInTwo(line, now, end);
    assert [line[now], line[now+1]] + line[now+2..end] == line[now..end];
  }

  lemma OneMoreChar(line: string, now: nat, q: QuotedToken)
    requires now < |line| && line[now] != QUOTE && (now != 92 || now + 1 == |line|)
    requires AllBetweenQuotes(line, now + 1, q)
    ensures AllBetweenQuotes(line, now, q.(text := [line[now]] + q.text))
  {
    var end := if q.closed then q.next - 1 else |line|;
    NoQuoteInOne(line, now, end);
    assert [line[now]] + line[now+1..end] == line[now..end];
  }

  lemma NoQuoteInOne(line: string, now: nat, to: nat)
    requires now < to <= |line| && line[now] != QUOTE && (now != 92 || now + 1 == |line|)
    ensures QuoteIn(line, now, to) <==> QuoteIn(line, now + 1, to)
  {
  }

  lemma NoQuoteInTwo(line: string, now: nat, to: nat)
    requires now == 92 && now + 2 <= to <= |line| && line[now] != QUOTE
    ensures QuoteIn(line, now, to) <==> QuoteIn(line, now + 2, to)
  {
  }

  /** A quoted token is added if it is closed, and scanning goes on behind it. */
  lemma QuotedIsToken(line: string, now: nat)
    requires now < |line| && line[now] == QUOTE
    ensures var q := Quoted(line, now + 1);
            Tokens(line, now) == (if q.closed then [q.text] else []) + Tokens(line, q.next)
  {
  }

  // ----- round trip -----

  /** A non-empty token without spaces that does not start with a quote; quotes further inside are harmless. */
  predicate Plain(t: string) {
    t != "" && t[0] != QUOTE && forall k :: 0 <= k < |t| ==> t[k] != SPACE
  }

  predicate AllPlain(ts: seq<string>) {
    forall k :: 0 <= k < |ts| ==> Plain(ts[k])
  }

  function Join(ts: seq<string>): string {
    if ts == [] then "" else if |ts| == 1 then ts[0] else ts[0] + [SPACE] + Join(ts[1..])
  }

  lemma {:induction false} WordEndAt(line: string, now: nat, end: nat)
    requires now <= end <= |line|
    requires forall k :: now <= k < end ==> line[k] != SPACE
    requires end < |line| ==> line[end] == SPACE
    ensures WordEnd(line, now) == end
    decreases end - now
  {
    if now == end {
    } else {
      WordEndAt(line, now + 1, end);
    }
  }

  lemma WordIsToken(line: string, now: nat, end: nat)
    requires now < end <= |line| && line[now] != QUOTE
    requires forall k :: now <= k < end ==> line[k] != SPACE
    requires end < |line| ==> line[end] == SPACE
    ensures Tokens(line, now) == [line[now..end]] + Tokens(line, end)
  {
    WordEndAt(line, now + 1, end);
  }

  lemma SpaceIsSkipped(line: string, now: nat)
    requires now < |line| && line[now] == SPACE
    ensures Tokens(line, now) == Tokens(line, now + 1)
  {
  }

  lemma JoinShape(ts: seq<string>)
    requires ts != []
    ensures var s, end := Join(ts), |ts[0]|;
            && end <= |s| && s[..end] == ts[0]
            && if |ts| == 1 then end == |s| else end < |s| && s[end] == SPACE && s[end + 1..] == Join(ts[1..])
  {
  }

  lemma {:induction false} JoinTokenizesAt(line: string, now: nat, ts: seq<string>)
    requires now <= |line| && line[now..] == Join(ts)
    requires AllPlain(ts)
    ensures Tokens(line, now) == ts
    decreases |ts|
  {
    if ts == [] {
    } else {
      FirstToken(line, now, ts);
      if |ts| > 1 {
        var next := now + |ts[0]| + 1;
        JoinTokenizesAt(line, next, ts[1..]);
        HeadAndTail(Tokens(line, now), ts);
      }
    }
  }

  lemma FirstToken(line: string, now: nat, ts: seq<string>)
    requires now <= |line| && line[now..] == Join(ts) && ts != [] && Plain(ts[0])
    ensures |ts| == 1 ==> Tokens(line, now) == ts
    ensures |ts| > 1 ==>
      var next := now + |ts[0]| + 1;
      && next <= |line| && line[next..] == Join(ts[1..])
      && Tokens(line, now) != [] && Tokens(line, now)[0] == ts[0] && Tokens(line, now)[1..] == Tokens(line, next)
  {
    var end := now + |ts[0]|;
    JoinedAt(line, now, ts);
    WordIsToken(line, now, end);
    if |ts| > 1 {
      SpaceIsSkipped(line, end);
    } else {
      assert [ts[0]] + [] == ts;
    }
  }

  lemma HeadAndTail<T>(a: seq<T>, b: seq<T>)
    requires a != [] && b != [] && a[0] == b[0] && a[1..] == b[1..]
    ensures a == b
  {
    assert a == [a[0]] + a[1..];
  }

  lemma JoinedAt(line: string, now: nat, ts: seq<string>)
    requires now <= |line| && line[now..] == Join(ts) && ts != [] && Plain(ts[0])
    ensures var end := now + |ts[0]|;
            && now < end <= |line| && line[now] != QUOTE && line[now..end] == ts[0]
            && (forall k :: now <= k < end ==> line[k] != SPACE)
            && if |ts| == 1 then end == |line|
               else end < |line| && line[end] == SPACE && line[end + 1..] == Join(ts[1..])
  {
    JoinShape(ts);
    var n, rest := |ts[0]|, line[now..];
    assert line[now..now + n] == rest[..n];
    assert now + n < |line| ==> line[now + n] == rest[n] && line[now + n + 1..] == rest[n + 1..];
    assert forall k :: now <= k < now + n ==> line[k] == ts[0][k - now];
  }

  function Cost(ts: seq<string>): int {
    if ts == [] then 0 else |ts[0]| + 1 + Cost(ts[1..])
  }

  lemma {:induction false} JoinLength(ts: seq<string>)
    ensures |Join(ts)| == if ts == [] then 0 else Cost(ts) - 1
    decreases |ts|
  {
    if ts == [] {
    } else {
      JoinLength(ts[1..]);
    }
  }

  lemma {:induction false} QuotedIsShort(line: string, now: nat)
    requires now <= |line|
    ensures var q := Quoted(line, now); |q.text| <= q.next - now && (q.closed ==> |q.text| < q.next - now)
    decreases |line| - now
  {
    if now == |line| || line[now] == QUOTE {
    } else {
      if now == ESCAPE_POSITION && now + 1 < |line| { QuotedIsShort(line, now + 2); }
      else { QuotedIsShort(line, now + 1); }
    }
  }

  lemma CostOfCons(t: string, ts: seq<string>)
    ensures Cost([t] + ts) == |t| + 1 + Cost(ts)
    ensures AllPlain([t] + ts) <==> Plain(t) && AllPlain(ts)
  {
    var all := [t] + ts;
    assert all[1..] == ts && all[0] == t;
    assert forall k :: 0 <= k < |ts| ==> ts[k] == all[k + 1];
  }

  /** Tokens with one separator each fit in the line, and a token that needed quotes leaves slack. */
  lemma {:induction false} TokensFit(line: string, now: nat)
    requires now <= |line|
    ensures var ts := Tokens(line, now); Cost(ts) <= |line| - now + (if AllPlain(ts) then 1 else 0)
    decreases |line| - now
  {
    if now == |line| {
    } else {
      var p := OnePass(line, now);
      var rest := Tokens(line, p.next);
      TokensFit(line, p.next);
      if p.next < |line| && line[p.next] == SPACE {
        TokensFit(line, p.next + 1);
        SpaceIsSkipped(line, p.next);
      }
      PassFits(line, now);
      OneMore(p.added, rest);
    }
  }

  lemma OneMore(added: seq<string>, ts: seq<string>)
    requires added == [] || added == [added[0]]
    ensures added == [] ==> added + ts == ts
    ensures added != [] ==> Cost(added + ts) == |added[0]| + 1 + Cost(ts)
    ensures AllPlain(added + ts) <==> (added != [] ==> Plain(added[0])) && AllPlain(ts)
  {
    if added == [] {
      assert added + ts == ts;
    } else {
      CostOfCons(added[0], ts);
    }
  }

  /** One pass adds at most one token, short enough for its place in the line. */
  lemma {:induction false} PassFits(line: string, now: nat)
    requires now < |line|
    ensures var p := OnePass(line, now);
            p.added != [] ==>
              && p.added == [p.added[0]]
              && |p.added[0]| <= p.next - now
              && (!Plain(p.added[0]) || (p.next < |line| && line[p.next] != SPACE) ==> |p.added[0]| + 2 <= p.next - now)
    decreases |line| - now
  {
    if line[now] == SPACE {
      if now + 1 < |line| { PassFits(line, now + 1); }
    } else if line[now] == QUOTE {
      QuotedIsShort(line, now + 1);
    } else {
      WordIsPlain(line, now);
    }
  }

  lemma {:induction false} WordIsPlain(line: string, now: nat)
    requires now < |line| && line[now] != SPACE && line[now] != QUOTE
    ensures Plain(line[now..WordEnd(line, now + 1)])
  {
    WordHasNoSpace(line, now + 1);
  }

  lemma {:induction false} WordHasNoSpace(line: string, now: nat)
    requires now <= |line|
    ensures forall k :: now <= k < WordEnd(line, now) ==> line[k] != SPACE
    decreases |line| - now
  {
    if now == |line| || line[now] == SPACE {
    } else {
      WordHasNoSpace(line, now + 1);
    }
  }

  /** A list joined by single spaces is split back into exactly that list if and only if every token is plain. */
  lemma JoinTokenizesExactly(ts: seq<string>)
    ensures Tokens(Join(ts), 0) == ts <==> AllPlain(ts)
  {
    var line := Join(ts);
    assert line[0..] == line;
    if AllPlain(ts) { JoinTokenizesAt(line, 0, ts); }
    TokensFit(line, 0);
    JoinLength(ts);
  }
}
