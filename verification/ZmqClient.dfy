/** The request client: open requests, shared under a mutex by the UI thread and a poll thread. */
module ZmqClient {
  import opened Common

  /**
   A socket is named by its handle; the handle of a closed socket may be used again.
   A callback is named by a token of its own.
   */
  datatype Request = Request(socket: int, callback: int, requestTime: int, timeout: int)

  datatype Answer = Ok(data: string) | TimedOut

  datatype Response = Response(callback: int, answer: Answer)

  datatype PollThread =
    | Idle
    | Polling(seen: seq<Request>, start: int, sleep: int)       // the poll set, when it was built, how long to wait
    | Holding(seen: seq<Request>, messages: map<int, string>, now: int)
                                                                // replies and clock read, ProcessEvent's lock not taken
    | Stopped

  datatype Client = Client(
    context: seq<Request>,                // context_
    poll: PollThread,
    posted: seq<Response>,                // callbacks posted to the UI thread
    accepted: seq<int>,                   // the callback of every SendRequest that returned true
    dropped: seq<int>,                    // callbacks of requests closed by Stop
    arrivals: set<(int, string)>,         // what arrived on a request's socket while it was open, by callback
    polls: nat,                           // how many polls have returned
    clock: int,                           // the latest reading of the clock, by either thread
    lastPass: int)                        // the reading that the latest pass over the requests went by

  datatype Event =
    | SendRequest(request: Request)
    | Build(now: int)
    | Wake(messages: map<int, string>, now: int)   // the poll returns; replies and then the clock are read
    | PollFails                                    // the poll returns an error
    | ProcessEvent
    | Stop

  const INITIAL := Client([], Idle, [], [], [], {}, 0, 0, 0)

  // ----- one pass over the requests -----

  function Sockets(rs: seq<Request>): set<int> {
    set k | 0 <= k < |rs| :: rs[k].socket
  }

  predicate Expired(r: Request, now: int) {
    r.timeout > 0 && now > r.requestTime + r.timeout
  }

  /** The requests a pass leaves open. */
  function Kept(rs: seq<Request>, messages: map<int, string>, now: int): seq<Request> {
    if rs == [] then []
    else
      var r := rs[|rs|-1];
      Kept(rs[..|rs|-1], messages, now) + if r.socket in messages || Expired(r, now) then [] else [r]
  }

  /** The responses a pass produces; a message is moved out of the table by the first request that takes it. */
  function Responses(rs: seq<Request>, messages: map<int, string>, now: int): seq<Response> {
    if rs == [] then []
    else
      var init, r := rs[..|rs|-1], rs[|rs|-1];
      Responses(init, messages, now) +
      if r.socket in messages
      then [Response(r.callback, Ok(if r.socket in Sockets(init) then "" else messages[r.socket]))]
      else if Expired(r, now) then [Response(r.callback, TimedOut)]
      else []
  }

  const FOREVER := -1

  function UntilDeadline(r: Request, now: int): int {
    var t := r.requestTime + r.timeout - now;
    if t < 0 then 0 else t
  }

  function PollTimeout(rs: seq<Request>, now: int): int {
    if rs == [] then FOREVER
    else
      var r, t := rs[|rs|-1], PollTimeout(rs[..|rs|-1], now);
      if r.timeout > 0 && (t == FOREVER || UntilDeadline(r, now) < t) then UntilDeadline(r, now) else t
  }

  /** What is passed to zmq_poll in poll number `id`. */
  function Sleep(id: nat, rs: seq<Request>, now: int): int {
    if id == 0 then 1 else PollTimeout(rs, now)
  }

  predicate Enabled(c: Client, e: Event) {
    match e
    case SendRequest(r) =>
      r.socket !in Sockets(c.context) && r.callback !in c.accepted && r.timeout >= 0 && r.requestTime >= c.clock
    case Build(now) => c.poll.Idle? && now >= c.clock
    case Wake(messages, now) => c.poll.Polling? && messages.Keys <= Sockets(c.poll.seen) && now >= c.clock
    case PollFails => c.poll.Polling?
    case ProcessEvent => c.poll.Holding?
    case Stop => !c.poll.Stopped?
  }

  function Callbacks(rs: seq<Request>): (cs: seq<int>)
    ensures |cs| == |rs|
  {
    seq(|rs|, k requires 0 <= k < |rs| => rs[k].callback)
  }

  function Answered(rs: seq<Response>): (cs: seq<int>)
    ensures |cs| == |rs|
  {
    seq(|rs|, k requires 0 <= k < |rs| => rs[k].callback)
  }

  function Arrived(seen: seq<Request>, messages: map<int, string>): set<(int, string)> {
    set k | 0 <= k < |seen| && seen[k].socket in messages :: (seen[k].callback, messages[seen[k].socket])
  }

  /** One critical section or poll; an event that cannot happen changes nothing. */
  function Step(c: Client, e: Event): Client {
    if !Enabled(c, e) then c else
    match e
    case SendRequest(r) =>
      c.(context := c.context + [r], accepted := c.accepted + [r.callback], clock := r.requestTime)
    case Build(now) => c.(poll := Polling(c.context, now, Sleep(c.polls, c.context, now)), clock := now)
    case Wake(messages, now) =>
      c.(poll := Holding(c.poll.seen, messages, now), arrivals := c.arrivals + Arrived(c.poll.seen, messages),
         polls := c.polls + 1, clock := now)
    case PollFails => c.(poll := Idle, polls := c.polls + 1)
    case ProcessEvent =>
      c.(context := Kept(c.context, c.poll.messages, c.poll.now),
         posted := c.posted + Responses(c.context, c.poll.messages, c.poll.now),
         poll := Idle, lastPass := c.poll.now)
    case Stop => c.(context := [], dropped := c.dropped + Callbacks(c.context), poll := Stopped)
  }

  function Run(es: seq<Event>): Client {
    if es == [] then INITIAL else Step(Run(es[..|es|-1]), es[|es|-1])
  }

  // ----- the invariant -----

  ghost predicate DistinctSockets(rs: seq<Request>) {
    forall i, j :: 0 <= i < j < |rs| ==> rs[i].socket != rs[j].socket
  }

  ghost predicate PollOk(c: Client) {
    && (c.poll.Polling? ==> c.poll.seen <= c.context)
    && (c.poll.Holding? ==>
          && c.poll.seen <= c.context && c.poll.messages.Keys <= Sockets(c.poll.seen)
          && Arrived(c.poll.seen, c.poll.messages) <= c.arrivals)
  }

  ghost predicate OwnData(c: Client) {
    forall k :: 0 <= k < |c.posted| && c.posted[k].answer.Ok? ==>
      (c.posted[k].callback, c.posted[k].answer.data) in c.arrivals
  }

  ghost predicate Accounted(c: Client) {
    && NoDup(c.accepted)
    && multiset(c.accepted) == multiset(Callbacks(c.context)) + multiset(Answered(c.posted)) + multiset(c.dropped)
  }

  /** No open request was past its deadline at the latest pass; a poll sleeps as long as it was computed to. */
  ghost predicate Timely(c: Client) {
    && c.lastPass <= c.clock
    && (forall r :: r in c.context ==> !Expired(r, c.lastPass))
    && (c.poll.Holding? ==> c.lastPass <= c.poll.now <= c.clock)
    && (c.poll.Polling? ==> c.poll.sleep == Sleep(c.polls, c.poll.seen, c.poll.start))
  }

  ghost predicate Inv(c: Client) {
    DistinctSockets(c.context) && PollOk(c) && OwnData(c) && Accounted(c) && Timely(c)
  }

  lemma CallbacksAppend(a: seq<Request>, b: seq<Request>)
    ensures Callbacks(a + b) == Callbacks(a) + Callbacks(b)
  {
  }

  lemma AnsweredAppend(a: seq<Response>, b: seq<Response>)
    ensures Answered(a + b) == Answered(a) + Answered(b)
  {
  }

  lemma CountOne(rs: seq<Request>, r: Request)
    ensures multiset(Callbacks(rs + [r])) == multiset(Callbacks(rs)) + multiset{r.callback}
  {
    CallbacksAppend(rs, [r]);
    assert Callbacks([r]) == [r.callback];
  }

  lemma CountOneAnswer(rs: seq<Response>, x: Response)
    ensures multiset(Answered(rs + [x])) == multiset(Answered(rs)) + multiset{x.callback}
  {
    AnsweredAppend(rs, [x]);
    assert Answered([x]) == [x.callback];
  }

  /** A pass keeps or answers every request, and no request twice. */
  lemma {:induction false} PassPartitions(rs: seq<Request>, messages: map<int, string>, now: int)
    ensures multiset(Callbacks(rs)) ==
            multiset(Callbacks(Kept(rs, messages, now))) + multiset(Answered(Responses(rs, messages, now)))
  {
    if rs == [] {
    } else {
      var init, r := rs[..|rs|-1], rs[|rs|-1];
      var k, a := Kept(init, messages, now), Responses(init, messages, now);
      PassPartitions(init, messages, now);
      assert rs == init + [r];
      CountOne(init, r);
      if r.socket in messages || Expired(r, now) {
        var x := Responses(rs, messages, now)[|a|];
        assert Responses(rs, messages, now) == a + [x] && Kept(rs, messages, now) == k;
        CountOneAnswer(a, x);
      } else {
        assert Responses(rs, messages, now) == a && Kept(rs, messages, now) == k + [r];
        CountOne(k, r);
      }
    }
  }

  /** What a pass leaves open: exactly the requests with neither a message nor a passed deadline. */
  lemma {:induction false} KeptIs(rs: seq<Request>, messages: map<int, string>, now: int)
    ensures forall r :: r in Kept(rs, messages, now) <==>
              r in rs && r.socket !in messages && !(r.timeout > 0 && now > r.requestTime + r.timeout)
    ensures DistinctSockets(rs) ==> DistinctSockets(Kept(rs, messages, now))
  {
    if rs == [] {
    } else {
      KeptIs(rs[..|rs|-1], messages, now);
      assert rs == rs[..|rs|-1] + [rs[|rs|-1]];
    }
  }

  /** Each response belongs to one of the requests: its own socket's message, or else a passed deadline. */
  ghost predicate ResponseFor(x: Response, r: Request, messages: map<int, string>, now: int) {
    && x.callback == r.callback
    && (if r.socket in messages then x.answer == Ok(messages[r.socket])
        else x.answer == TimedOut && r.timeout > 0 && now > r.requestTime + r.timeout)
  }

  ghost predicate Justified(x: Response, rs: seq<Request>, messages: map<int, string>, now: int) {
    exists i :: 0 <= i < |rs| && ResponseFor(x, rs[i], messages, now)
  }

  lemma {:induction false} ResponsesAre(rs: seq<Request>, messages: map<int, string>, now: int)
    requires DistinctSockets(rs)
    ensures forall x :: x in Responses(rs, messages, now) ==> Justified(x, rs, messages, now)
  {
    if rs == [] {
    } else {
      var n := |rs| - 1;
      var init, r, a, all := rs[..n], rs[n], Responses(rs[..n], messages, now), Responses(rs, messages, now);
      ResponsesAre(init, messages, now);
      assert r.socket !in Sockets(init);
      forall x | x in all ensures Justified(x, rs, messages, now) {
        if x in a {
          var i :| 0 <= i < n && ResponseFor(x, init[i], messages, now);
          assert ResponseFor(x, rs[i], messages, now);
        } else {
          assert x == all[|a|];
          assert ResponseFor(x, rs[n], messages, now);
        }
      }
    }
  }

  lemma ProcessKeeps(c: Client)
    requires Inv(c) && c.poll.Holding?
    ensures Inv(Step(c, ProcessEvent))
  {
    KeptIs(c.context, c.poll.messages, c.poll.now);
    ProcessAccounts(c);
    ProcessOwnData(c);
  }

  lemma ProcessAccounts(c: Client)
    requires Accounted(c) && c.poll.Holding?
    ensures Accounted(Step(c, ProcessEvent))
  {
    PassPartitions(c.context, c.poll.messages, c.poll.now);
    AnsweredAppend(c.posted, Responses(c.context, c.poll.messages, c.poll.now));
  }

  lemma ProcessOwnData(c: Client)
    requires DistinctSockets(c.context) && PollOk(c) && OwnData(c) && c.poll.Holding?
    ensures OwnData(Step(c, ProcessEvent))
  {
    var messages, now := c.poll.messages, c.poll.now;
    var c' := Step(c, ProcessEvent);
    var rs := Responses(c.context, messages, now);
    ResponsesAre(c.context, messages, now);
    forall k | 0 <= k < |c'.posted| && c'.posted[k].answer.Ok?
      ensures (c'.posted[k].callback, c'.posted[k].answer.data) in c'.arrivals
    {
      if k >= |c.posted| {
        assert rs[k-|c.posted|] in rs && Justified(rs[k-|c.posted|], c.context, messages, now);
        var i :| 0 <= i < |c.context| && ResponseFor(rs[k-|c.posted|], c.context[i], messages, now);
        SeenSocketIsOwn(c, i);
      }
    }
  }

  /** A message read for a polled socket is only found by the request that was polled, even if handles are re-used. */
  lemma SeenSocketIsOwn(c: Client, i: nat)
    requires DistinctSockets(c.context) && PollOk(c) && c.poll.Holding? && i < |c.context|
    requires c.context[i].socket in c.poll.messages
    ensures i < |c.poll.seen| && (c.context[i].callback, c.poll.messages[c.context[i].socket]) in c.arrivals
  {
    var j :| 0 <= j < |c.poll.seen| && c.poll.seen[j].socket == c.context[i].socket;
    assert c.poll.seen[j] == c.context[j];
    assert i == j;
  }

  lemma StepKeeps(c: Client, e: Event)
    requires Inv(c)
    ensures Inv(Step(c, e))
  {
    if Enabled(c, e) {
      match e
      case SendRequest(r) => SendKeeps(c, r);
      case Build(_) =>
      case Wake(_, _) =>
      case PollFails =>
      case ProcessEvent => ProcessKeeps(c);
      case Stop => StopKeeps(c);
    }
  }

  lemma SendKeeps(c: Client, r: Request)
    requires Inv(c) && Enabled(c, SendRequest(r))
    ensures Inv(Step(c, SendRequest(r)))
  {
    CallbacksAppend(c.context, [r]);
    assert Callbacks([r]) == [r.callback];
  }

  lemma StopKeeps(c: Client)
    requires Inv(c) && Enabled(c, Stop)
    ensures Inv(Step(c, Stop))
  {
    assert Callbacks([]) == [];
  }

  lemma {:induction false} RunKeeps(es: seq<Event>)
    ensures Inv(Run(es))
  {
    if es == [] {
    } else {
      RunKeeps(es[..|es|-1]);
      StepKeeps(Run(es[..|es|-1]), es[|es|-1]);
    }
  }

  // ----- the theorems -----

  /**
   In every interleaving, every accepted request is in exactly one place, once:
   still open, or answered, or closed by Stop; nothing else is ever answered.
   */
  lemma AnsweredExactlyOnce(es: seq<Event>, callback: int)
    ensures var c := Run(es);
            multiset(Callbacks(c.context))[callback] + multiset(Answered(c.posted))[callback]
            + multiset(c.dropped)[callback] == if callback in c.accepted then 1 else 0
  {
    RunKeeps(es);
    NoDupCounts(Run(es).accepted, callback);
  }

  /** In every interleaving, the data of a reply arrived on the request's own socket while it was open. */
  lemma AnsweredWithOwnData(es: seq<Event>, k: nat)
    requires k < |Run(es).posted| && Run(es).posted[k].answer.Ok?
    ensures (Run(es).posted[k].callback, Run(es).posted[k].answer.data) in Run(es).arrivals
  {
    RunKeeps(es);
  }

  /** In every run, no open request was past its deadline when the latest pass read the clock. */
  lemma NoExpiredRequestRemains(es: seq<Event>, r: Request)
    requires r in Run(es).context
    ensures r.timeout > 0 ==> Run(es).lastPass <= r.requestTime + r.timeout
  {
    RunKeeps(es);
  }

  /** A pass posts a time-out only past the deadline of a request without a message. */
  lemma TimeoutsAreLate(es: seq<Event>, k: nat)
    requires Run(es).poll.Holding?
    requires |Run(es).posted| <= k < |Step(Run(es), ProcessEvent).posted|
    ensures var c, c' := Run(es), Step(Run(es), ProcessEvent);
            Justified(c'.posted[k], c.context, c.poll.messages, c.poll.now)
  {
    RunKeeps(es);
    var c := Run(es);
    ResponsesAre(c.context, c.poll.messages, c.poll.now);
    assert Step(c, ProcessEvent).posted[k] == Responses(c.context, c.poll.messages, c.poll.now)[k-|c.posted|];
  }

  /**
   One turn of the poll thread: every open request is watched; each one with a
   message is answered with it, each other one past its deadline with a time-out,
   and the rest stay open.
   */
  lemma TurnAnswersAll(es: seq<Event>, start: int, messages: map<int, string>, now: int, r: Request)
    requires Run(es).poll.Idle? && start >= Run(es).clock && now >= start
    requires messages.Keys <= Sockets(Run(es).context) && r in Run(es).context
    ensures var c1 := Step(Run(es), Build(start));
            var c2 := Step(c1, Wake(messages, now));
            var c3 := Step(c2, ProcessEvent);
            && c1.poll.Polling? && c1.poll.seen == Run(es).context && c3.poll.Idle?
            && if r.socket in messages
               then Response(r.callback, Ok(messages[r.socket])) in c3.posted && r !in c3.context
               else if r.timeout > 0 && now > r.requestTime + r.timeout
               then Response(r.callback, TimedOut) in c3.posted && r !in c3.context
               else r in c3.context
  {
    RunKeeps(es);
    var c := Run(es);
    KeptIs(c.context, messages, now);
    AllAnswered(c.context, messages, now, r);
  }

  lemma {:induction false} AllAnswered(rs: seq<Request>, messages: map<int, string>, now: int, r: Request)
    requires DistinctSockets(rs) && r in rs
    ensures r.socket in messages ==> Response(r.callback, Ok(messages[r.socket])) in Responses(rs, messages, now)
    ensures r.socket !in messages && r.timeout > 0 && now > r.requestTime + r.timeout ==>
              Response(r.callback, TimedOut) in Responses(rs, messages, now)
  {
    var n := |rs| - 1;
    if r == rs[n] {
      assert r.socket !in Sockets(rs[..n]);
      var all, init := Responses(rs, messages, now), Responses(rs[..n], messages, now);
      if r.socket in messages || (r.timeout > 0 && now > r.requestTime + r.timeout) {
        assert all[|init|] in all;
      }
    } else {
      assert rs == rs[..n] + [rs[n]];
      AllAnswered(rs[..n], messages, now, r);
    }
  }

  function RunFrom(c: Client, es: seq<Event>): Client {
    if es == [] then c else Step(RunFrom(c, es[..|es|-1]), es[|es|-1])
  }

  /** Stop closes all open requests, and from then on, whatever happens, no callback is posted. */
  lemma {:induction false} StopClosesAll(c: Client, es: seq<Event>)
    requires !c.poll.Stopped?
    ensures var c1, c' := Step(c, Stop), RunFrom(Step(c, Stop), es);
            && c1.context == [] && |c1.dropped| == |c.dropped| + |c.context|
            && (forall k :: 0 <= k < |c.context| ==> c1.dropped[|c.dropped| + k] == c.context[k].callback)
            && c'.poll.Stopped? && c'.posted == c.posted && c'.dropped == c1.dropped
  {
    if es == [] {
    } else {
      StopClosesAll(c, es[..|es|-1]);
    }
  }

  // ----- how long the poll may sleep -----

  /** Request r has a deadline, and no request has an earlier one. */
  ghost predicate IsEarliest(rs: seq<Request>, r: Request) {
    && r in rs && r.timeout > 0
    && forall x :: x in rs && x.timeout > 0 ==> r.requestTime + r.timeout <= x.requestTime + x.timeout
  }

  /** Waiting for t from `now` ends at the deadline of the request, or at once if that has come. */
  ghost predicate EndsAt(t: int, now: int, r: Request) {
    t >= 0 && now + t >= r.requestTime + r.timeout && (t > 0 ==> now + t == r.requestTime + r.timeout)
  }

  lemma InPrefix(rs: seq<Request>, x: Request)
    requires rs != []
    ensures x in rs <==> x in rs[..|rs|-1] || x == rs[|rs|-1]
  {
    assert rs == rs[..|rs|-1] + [rs[|rs|-1]];
  }

  lemma EarlierOf(rs: seq<Request>, now: int, t0: int, first: Request)
    requires rs != [] && IsEarliest(rs[..|rs|-1], first) && EndsAt(t0, now, first)
    ensures var r := rs[|rs|-1];
            var t := if r.timeout > 0 && UntilDeadline(r, now) < t0 then UntilDeadline(r, now) else t0;
            exists x :: IsEarliest(rs, x) && EndsAt(t, now, x)
  {
    var r := rs[|rs|-1];
    forall x ensures x in rs <==> x in rs[..|rs|-1] || x == r { InPrefix(rs, x); }
    if r.timeout > 0 && r.requestTime + r.timeout < first.requestTime + first.timeout {
      assert IsEarliest(rs, r);
    } else {
      assert IsEarliest(rs, first);
    }
  }

  /** The time-out ends at the earliest deadline, or at once if that has come; it is -1 exactly if there is none. */
  lemma {:induction false} PollTimeoutIsEarliest(rs: seq<Request>, now: int)
    ensures var t := PollTimeout(rs, now);
            && (t == -1 <==> forall r :: r in rs ==> r.timeout <= 0)
            && (t != -1 ==> exists r :: IsEarliest(rs, r) && EndsAt(t, now, r))
  {
    if rs == [] {
    } else {
      var n := |rs| - 1;
      PollTimeoutIsEarliest(rs[..n], now);
      forall x ensures x in rs <==> x in rs[..n] || x == rs[n] { InPrefix(rs, x); }
      var t0 := PollTimeout(rs[..n], now);
      if t0 != -1 {
        var first :| IsEarliest(rs[..n], first) && EndsAt(t0, now, first);
        EarlierOf(rs, now, t0, first);
      } else if rs[n].timeout > 0 {
        assert IsEarliest(rs, rs[n]) && EndsAt(UntilDeadline(rs[n], now), now, rs[n]);
      }
    }
  }

  /** The poll may sleep beyond the deadline of a request in its poll set: for ever, or until later than that. */
  ghost predicate SleepsPast(sleep: int, rs: seq<Request>, now: int) {
    exists r :: && r in rs && r.timeout > 0
                && (sleep == -1 || (sleep > 0 && now + sleep > r.requestTime + r.timeout))
  }

  /** Some request of the poll set has reached its deadline. */
  ghost predicate DeadlineCome(rs: seq<Request>, now: int) {
    exists r :: r in rs && r.timeout > 0 && now >= r.requestTime + r.timeout
  }

  lemma SleepsPastExactly(id: nat, rs: seq<Request>, now: int)
    ensures SleepsPast(Sleep(id, rs, now), rs, now) <==> id == 0 && DeadlineCome(rs, now)
  {
    PollTimeoutIsEarliest(rs, now);
    if id == 0 && DeadlineCome(rs, now) {
      var r :| r in rs && r.timeout > 0 && now >= r.requestTime + r.timeout;
      assert Sleep(id, rs, now) > 0 && now + Sleep(id, rs, now) > r.requestTime + r.timeout;
    }
  }

  /** In every run, a poll sleeps past a deadline of its set exactly if it is the first and one has already come. */
  lemma OversleepsExactly(es: seq<Event>)
    requires Run(es).poll.Polling?
    ensures var c := Run(es);
            SleepsPast(c.poll.sleep, c.poll.seen, c.poll.start) <==>
              c.polls == 0 && DeadlineCome(c.poll.seen, c.poll.start)
  {
    RunKeeps(es);
    SleepsPastExactly(Run(es).polls, Run(es).poll.seen, Run(es).poll.start);
  }

  /** In every run, every poll but the first sleeps just until the earliest deadline of its set, if there is one. */
  lemma SleepsUntilEarliest(es: seq<Event>)
    requires Run(es).poll.Polling? && Run(es).polls > 0
    ensures var seen, sleep := Run(es).poll.seen, Run(es).poll.sleep;
            if forall r :: r in seen ==> r.timeout <= 0 then sleep == -1
            else exists r :: IsEarliest(seen, r) && EndsAt(sleep, Run(es).poll.start, r)
  {
    RunKeeps(es);
    PollTimeoutIsEarliest(Run(es).poll.seen, Run(es).poll.start);
  }

  /** The order of the program: Start returns after the first poll has, and requests are sent after that. */
  ghost predicate StartedFirst(es: seq<Event>) {
    forall k :: 0 <= k < |es| && es[k].SendRequest? ==> Run(es[..k]).polls > 0
  }

  lemma {:induction false} NothingSentBeforeFirstPoll(es: seq<Event>)
    requires StartedFirst(es)
    ensures var c := Run(es); c.polls == 0 ==> c.context == [] && (c.poll.Polling? ==> c.poll.seen == [])
  {
    if es == [] {
    } else {
      var init := es[..|es|-1];
      forall k | 0 <= k < |init| && init[k].SendRequest? ensures Run(init[..k]).polls > 0 {
        assert init[..k] == es[..k];
      }
      NothingSentBeforeFirstPoll(init);
      RunKeeps(init);
      assert es[|es|-1].SendRequest? ==> Run(init).polls > 0;
    }
  }

  /** In every run in the program's order, no poll sleeps past a deadline of its poll set. */
  lemma NeverSleepsPast(es: seq<Event>)
    requires StartedFirst(es) && Run(es).poll.Polling?
    ensures !SleepsPast(Run(es).poll.sleep, Run(es).poll.seen, Run(es).poll.start)
  {
    OversleepsExactly(es);
    NothingSentBeforeFirstPoll(es);
  }

  /** A request sent before Start, which SendRequest does not refuse: the first poll sleeps past its deadline. */
  lemma EarlyRequestIsSleptPast()
    ensures var c := Run([SendRequest(Request(1, 1, 0, 5)), Build(5)]);
            c.poll.Polling? && SleepsPast(c.poll.sleep, c.poll.seen, c.poll.start)
  {
    var r := Request(1, 1, 0, 5);
    var es := [SendRequest(r), Build(5)];
    assert es[..1] == [SendRequest(r)] && es[..1][..0] == [];
    assert Run(es[..1]) == Step(INITIAL, SendRequest(r));
    var c := Run(es);
    assert c == Step(Run(es[..1]), Build(5)) && c.poll == Polling([r], 5, 1);
    assert c.poll.seen[0] == r;
  }
}
