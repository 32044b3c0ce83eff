/**
 The cookie-guarded repeating timer. Posted tasks form a bag that may fire in
 any order; each carries the cookie that was current when it was posted.
 */
module RepeatedAction {
  import opened Common

  datatype Timer = Timer(running: bool, cookie: int, repeatedTime: int, posted: multiset<int>, runs: int, finishes: int)

  datatype Call = CallStart(times: int) | CallStop | CallRestart(times: int)

  /** A call from outside, or the firing of a posted task during which the action makes some calls. */
  datatype Event = Outside(call: Call) | Fire(cookie: int, during: seq<Call>)

  const INITIAL := Timer(false, 0, -1, multiset{}, 0, 0)

  function Apply(t: Timer, c: Call): Timer {
    match c
    case CallStart(n) =>
      t.(running := true, cookie := t.cookie + 1, repeatedTime := n, posted := t.posted + multiset{t.cookie + 1})
    case CallStop => t.(running := false, cookie := t.cookie + 1)
    case CallRestart(n) =>
      if !t.running then t
      else t.(cookie := t.cookie + 1, repeatedTime := n, posted := t.posted + multiset{t.cookie + 1})
  }

  function ApplyAll(t: Timer, cs: seq<Call>): Timer {
    if cs == [] then t else Apply(ApplyAll(t, cs[..|cs|-1]), cs[|cs|-1])
  }

  predicate IsLive(t: Timer, cookie: int) { t.running && cookie == t.cookie }

  /** The state in which the action runs: a positive count has been lowered. */
  function Begin(t: Timer): Timer {
    t.(repeatedTime := if t.repeatedTime < 0 then t.repeatedTime else t.repeatedTime - 1, runs := t.runs + 1)
  }

  /** DoActionImpl, for a task taken from the bag. */
  function DoAction(t: Timer, cookie: int, during: seq<Call>): Timer {
    if !IsLive(t, cookie) then t
    else if t.repeatedTime == 0 then t.(finishes := t.finishes + 1)
    else
      var t2 := ApplyAll(Begin(t), during);
      t2.(posted := t2.posted + multiset{t2.cookie})
  }

  function Step(t: Timer, e: Event): Timer {
    match e
    case Outside(c) => Apply(t, c)
    case Fire(k, during) => if k in t.posted then DoAction(t.(posted := t.posted - multiset{k}), k, during) else t
  }

  function Run(t: Timer, es: seq<Event>): Timer {
    if es == [] then t else Step(Run(t, es[..|es|-1]), es[|es|-1])
  }

  // ----- at most one live task -----

  /** How many posted tasks would run if they fired now. */
  function Live(t: Timer): nat { if t.running then t.posted[t.cookie] else 0 }

  ghost predicate NoFutureCookie(t: Timer) {
    forall k :: k in t.posted ==> k <= t.cookie
  }

  ghost predicate Inv(t: Timer) { NoFutureCookie(t) && Live(t) <= 1 }

  lemma {:induction false} CallsRaiseCookie(t: Timer, cs: seq<Call>)
    ensures ApplyAll(t, cs).cookie >= t.cookie
    ensures NoFutureCookie(t) ==> NoFutureCookie(ApplyAll(t, cs))
  {
    if cs == [] {
    } else {
      CallsRaiseCookie(t, cs[..|cs|-1]);
    }
  }

  lemma StepRaisesCookie(t: Timer, e: Event)
    ensures Step(t, e).cookie >= t.cookie
  {
    if e.Fire? { CallsRaiseCookie(Begin(t.(posted := t.posted - multiset{e.cookie})), e.during); }
  }

  lemma {:induction false} RunRaisesCookie(t: Timer, es: seq<Event>)
    ensures Run(t, es).cookie >= t.cookie
  {
    if es == [] {
    } else {
      RunRaisesCookie(t, es[..|es|-1]);
      StepRaisesCookie(Run(t, es[..|es|-1]), es[|es|-1]);
    }
  }

  /** A task posted before a Start, a Stop or an effective Restart does nothing, however much later it fires. */
  lemma OldTasksAreInert(t: Timer, c: Call, es: seq<Event>, k: int, during: seq<Call>)
    requires NoFutureCookie(t) && k in t.posted && (c.CallRestart? ==> t.running)
    ensures var t' := Run(Apply(t, c), es);
            k in t'.posted ==> Step(t', Fire(k, during)) == t'.(posted := t'.posted - multiset{k})
  {
    RunRaisesCookie(Apply(t, c), es);
  }

  // ----- an undisturbed start -----

  /** Only posted tasks fire, and the action makes no calls. */
  predicate Undisturbed(es: seq<Event>) {
    forall k :: 0 <= k < |es| ==> es[k].Fire? && es[k].during == []
  }

  /** How often a task with this cookie fires. */
  function Firings(es: seq<Event>, cookie: int): nat {
    if es == [] then 0
    else
      var e := es[|es|-1];
      Firings(es[..|es|-1], cookie) + if e.Fire? && e.cookie == cookie then 1 else 0
  }

  /** One firing: a live task runs or reports, any other leaves everything but the bag. */
  lemma FiringCountsDown(t: Timer, cookie: int)
    requires NoFutureCookie(t) && t.running && Live(t) <= 1 && t.repeatedTime >= 0
    ensures var t', live := Step(t, Fire(cookie, [])), cookie == t.cookie && Live(t) == 1;
            && t'.running && t'.cookie == t.cookie && NoFutureCookie(t')
            && t'.runs == t.runs + (if live && t.repeatedTime > 0 then 1 else 0)
            && t'.finishes == t.finishes + (if live && t.repeatedTime == 0 then 1 else 0)
            && t'.repeatedTime == t.repeatedTime - (if live && t.repeatedTime > 0 then 1 else 0)
            && Live(t') == (if live && t.repeatedTime == 0 then 0 else Live(t))
  {
  }

  /**
   From any state with one live task and n runs to go: the first n firings of
   the live cookie run the action, the next one reports the end, and all later
   ones do nothing. So n + 1 firings always reach the report.
   */
  lemma {:induction false} CountsDown(t: Timer, es: seq<Event>)
    requires NoFutureCookie(t) && Live(t) == 1 && t.repeatedTime >= 0 && Undisturbed(es)
    ensures var t', fired, n := Run(t, es), Firings(es, t.cookie), t.repeatedTime;
            && t'.running && t'.cookie == t.cookie && NoFutureCookie(t')
            && t'.runs == t.runs + Min(fired, n)
            && t'.finishes == t.finishes + (if fired > n then 1 else 0)
            && Live(t') == (if fired > n then 0 else 1)
            && t'.repeatedTime == (if fired > n then 0 else n - fired)
  {
    if es == [] {
    } else {
      CountsDown(t, es[..|es|-1]);
      FiringCountsDown(Run(t, es[..|es|-1]), es[|es|-1].cookie);
    }
  }

  /** An undisturbed start or restart runs the action exactly n times and then reports its end exactly once. */
  lemma {:induction false} RunsExactly(t: Timer, c: Call, n: int, es: seq<Event>)
    requires NoFutureCookie(t) && n >= 0 && Undisturbed(es)
    requires c == CallStart(n) || (c == CallRestart(n) && t.running)
    ensures var t' := Run(Apply(t, c), es);
            && t'.runs - t.runs <= n && t'.finishes - t.finishes <= 1
            && (t'.finishes == t.finishes + 1 <==> Firings(es, t.cookie + 1) > n)
            && (t'.finishes == t.finishes + 1 ==> t'.runs - t.runs == n && Live(t') == 0)
            && (t'.finishes == t.finishes ==> Live(t') == 1)
  {
    CallPosts(t, c, n);
    CountsDown(Apply(t, c), es);
  }

  lemma CallPosts(t: Timer, c: Call, n: int)
    requires NoFutureCookie(t) && (c == CallStart(n) || (c == CallRestart(n) && t.running))
    ensures var t0 := Apply(t, c);
            && NoFutureCookie(t0) && Live(t0) == 1 && t0.repeatedTime == n
            && t0.cookie == t.cookie + 1 && t0.runs == t.runs && t0.finishes == t.finishes
  {
  }

  lemma FiringGoesOn(t: Timer, cookie: int)
    requires NoFutureCookie(t) && t.running && Live(t) == 1 && t.repeatedTime < 0
    ensures var t' := Step(t, Fire(cookie, []));
            && t'.running && t'.cookie == t.cookie && NoFutureCookie(t') && Live(t') == 1
            && t'.repeatedTime == t.repeatedTime && t'.finishes == t.finishes
            && t'.runs == t.runs + if cookie == t.cookie then 1 else 0
  {
  }

  lemma {:induction false} GoesOn(t: Timer, es: seq<Event>)
    requires NoFutureCookie(t) && Live(t) == 1 && t.repeatedTime < 0 && Undisturbed(es)
    ensures var t' := Run(t, es);
            && t'.running && t'.cookie == t.cookie && NoFutureCookie(t') && Live(t') == 1
            && t'.repeatedTime == t.repeatedTime && t'.finishes == t.finishes
            && t'.runs == t.runs + Firings(es, t.cookie)
  {
    if es == [] {
    } else {
      GoesOn(t, es[..|es|-1]);
      FiringGoesOn(Run(t, es[..|es|-1]), es[|es|-1].cookie);
    }
  }

  /** A start or restart with a negative count runs at every firing of its cookie, and never reports an end. */
  lemma {:induction false} RunsForever(t: Timer, c: Call, n: int, es: seq<Event>)
    requires NoFutureCookie(t) && n < 0 && Undisturbed(es)
    requires c == CallStart(n) || (c == CallRestart(n) && t.running)
    ensures var t' := Run(Apply(t, c), es);
            && t'.running && NoFutureCookie(t') && t'.repeatedTime == n && Live(t') == 1
            && t'.finishes == t.finishes && t'.runs == t.runs + Firings(es, t.cookie + 1)
  {
    CallPosts(t, c, n);
    GoesOn(Apply(t, c), es);
  }

  /** After a Stop nothing acts, whatever fires and however often, and a Restart is refused. */
  lemma {:induction false} StopStops(t: Timer, es: seq<Event>, n: int)
    requires NoFutureCookie(t) && Undisturbed(es)
    ensures var t' := Run(Apply(t, CallStop), es);
            && !t'.running && t'.runs == t.runs && t'.finishes == t.finishes
            && Apply(t', CallRestart(n)) == t'
  {
    if es == [] {
    } else {
      StopStops(t, es[..|es|-1], n);
    }
  }

  // ----- an action that makes calls -----

  /** The last call that had an effect was a Start or a Restart. */
  predicate LastCallPosts(t: Timer, cs: seq<Call>) {
    if cs == [] then false
    else
      var init, last := cs[..|cs|-1], cs[|cs|-1];
      last.CallStart? || (last.CallRestart? && if ApplyAll(t, init).running then true else LastCallPosts(t, init))
  }

  lemma {:induction false} AfterCalls(t: Timer, cs: seq<Call>)
    requires t.running && NoFutureCookie(t)
    ensures var t' := ApplyAll(t, cs);
            && NoFutureCookie(t')
            && (LastCallPosts(t, cs) ==> t'.running && t'.posted[t'.cookie] == 1)
            && (!LastCallPosts(t, cs) && t'.running ==> t' == t)
  {
    if cs == [] {
    } else {
      AfterCalls(t, cs[..|cs|-1]);
    }
  }

  /** The firing of a live task whose action ends by posting another one. */
  predicate Harmful(t: Timer, e: Event) {
    && e.Fire? && e.cookie in t.posted && IsLive(t, e.cookie) && t.repeatedTime != 0
    && LastCallPosts(Begin(t.(posted := t.posted - multiset{e.cookie})), e.during)
  }

  lemma {:induction false} StepKeepsCookies(t: Timer, e: Event)
    requires NoFutureCookie(t)
    ensures NoFutureCookie(Step(t, e))
  {
    if e.Fire? { CallsRaiseCookie(Begin(t.(posted := t.posted - multiset{e.cookie})), e.during); }
  }

  /** Exactly which steps keep at most one live task: all but the harmful ones. */
  lemma {:induction false} StepKeepsExactly(t: Timer, e: Event)
    requires Inv(t)
    ensures Inv(Step(t, e)) <==> !Harmful(t, e)
  {
    StepKeepsCookies(t, e);
    if e.Fire? && e.cookie in t.posted && IsLive(t, e.cookie) && t.repeatedTime != 0 {
      AfterCalls(Begin(t.(posted := t.posted - multiset{e.cookie})), e.during);
    }
  }

  lemma {:induction false} RunKeepsCookies(es: seq<Event>)
    ensures NoFutureCookie(Run(INITIAL, es))
  {
    if es == [] {
    } else {
      RunKeepsCookies(es[..|es|-1]);
      StepKeepsCookies(Run(INITIAL, es[..|es|-1]), es[|es|-1]);
    }
  }

  ghost predicate NeverHarmful(es: seq<Event>) {
    forall n :: 0 <= n < |es| ==> !Harmful(Run(INITIAL, es[..n]), es[n])
  }

  lemma RunOne(es: seq<Event>, n: nat)
    requires n < |es|
    ensures Run(INITIAL, es[..n+1]) == Step(Run(INITIAL, es[..n]), es[n])
  {
    assert es[..n+1][..n] == es[..n];
  }

  lemma {:induction false} HarmlessRunKeeps(es: seq<Event>, n: nat)
    requires NeverHarmful(es) && n <= |es|
    ensures Inv(Run(INITIAL, es[..n]))
  {
    if n == 0 {
    } else {
      HarmlessRunKeeps(es, n - 1);
      RunOne(es, n - 1);
      StepKeepsExactly(Run(INITIAL, es[..n-1]), es[n-1]);
    }
  }

  /**
   Over any calls and firings, in any order, with any action: there is never
   more than one live task if and only if no firing is harmful.
   */
  lemma {:induction false} AtMostOneLiveExactly(es: seq<Event>)
    ensures (forall n :: 0 <= n <= |es| ==> Live(Run(INITIAL, es[..n])) <= 1) <==> NeverHarmful(es)
  {
    if NeverHarmful(es) {
      forall n | 0 <= n <= |es| ensures Live(Run(INITIAL, es[..n])) <= 1 { HarmlessRunKeeps(es, n); }
    } else {
      var n :| 0 <= n < |es| && Harmful(Run(INITIAL, es[..n]), es[n]);
      RunOne(es, n);
      RunKeepsCookies(es[..n]);
      RunKeepsCookies(es[..n+1]);
      if Live(Run(INITIAL, es[..n])) <= 1 {
        StepKeepsExactly(Run(INITIAL, es[..n]), es[n]);
        assert Live(Run(INITIAL, es[..n+1])) > 1;
      }
    }
  }

  /** The action never calls Start or Restart. */
  predicate NeverStarts(e: Event) {
    e.Fire? ==> forall k :: 0 <= k < |e.during| ==> e.during[k].CallStop?
  }

  /** An action that at most stops its timer is never harmful. */
  lemma {:induction false} AtMostOneLive(es: seq<Event>)
    requires forall k :: 0 <= k < |es| ==> NeverStarts(es[k])
    ensures forall n :: 0 <= n <= |es| ==> Inv(Run(INITIAL, es[..n]))
  {
    assert NeverHarmful(es) by {
      forall n | 0 <= n < |es| ensures !Harmful(Run(INITIAL, es[..n]), es[n]) { assert NeverStarts(es[n]); }
    }
    forall n | 0 <= n <= |es| ensures Inv(Run(INITIAL, es[..n])) { HarmlessRunKeeps(es, n); }
  }

  /** An action that starts its own timer again leaves two live tasks. */
  lemma SelfStartDoubles(t: Timer, n: int)
    requires Inv(t) && Live(t) == 1 && t.repeatedTime != 0
    ensures Live(Step(t, Fire(t.cookie, [CallStart(n)]))) == 2
  {
    var t1 := Begin(t.(posted := t.posted - multiset{t.cookie}));
    assert ApplyAll(t1, [CallStart(n)]) == Apply(t1, CallStart(n)) by { assert [CallStart(n)][..0] == []; }
  }

  // ----- the object -----

  class RepeatedAction {
    var isRunning: bool
    var currentCookie: int
    var repeatedTime: int
    var posted: multiset<int>
    var runs: int
    var finishes: int

    ghost function State(): Timer
      reads this
    {
      Timer(isRunning, currentCookie, repeatedTime, posted, runs, finishes)
    }

    constructor ()
      ensures State() == INITIAL
    {
      isRunning, currentCookie, repeatedTime := false, 0, -1;
      posted, runs, finishes := multiset{}, 0, 0;
    }

    method Start(times: int)
      modifies this
      ensures State() == Apply(old(State()), CallStart(times))
    {
      isRunning := true;
      currentCookie := currentCookie + 1;
      repeatedTime := times;
      posted := posted + multiset{currentCookie};
    }

    method Stop()
      modifies this
      ensures State() == Apply(old(State()), CallStop)
    {
      isRunning := false;
      currentCookie := currentCookie + 1;
    }

    method Restart(times: int) returns (ok: bool)
      modifies this
      ensures State() == Apply(old(State()), CallRestart(times)) && ok == old(isRunning)
    {
      if !isRunning { return false; }
      currentCookie := currentCookie + 1;
      repeatedTime := times;
      posted := posted + multiset{currentCookie};
      return true;
    }

    method MakeCalls(cs: seq<Call>)
      modifies this
      ensures State() == ApplyAll(old(State()), cs)
    {
      for k := 0 to |cs|
        invariant State() == ApplyAll(old(State()), cs[..k])
      {
        assert cs[..k+1][..k] == cs[..k];
        match cs[k]
        case CallStart(n) => Start(n);
        case CallStop => Stop();
        case CallRestart(n) => var _ := Restart(n);
      }
      assert cs[..|cs|] == cs;
    }

    /** A posted task fires; `during` are the calls its action makes. */
    method DoActionImpl(cookie: int, during: seq<Call>)
      modifies this
      ensures State() == DoAction(old(State()), cookie, during)
    {
      if isRunning && cookie == currentCookie {
        if repeatedTime == 0 {
          finishes := finishes + 1;
        } else {
          if repeatedTime > 0 { repeatedTime := repeatedTime - 1; }
          runs := runs + 1;
          assert State() == Begin(old(State()));
          MakeCalls(during);
          posted := posted + multiset{currentCookie};
        }
      }
    }
  }
}
