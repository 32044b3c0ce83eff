/** One reply per request: what every interleaving of the two server threads keeps, and exactly when it does. */
module ZmqServerSafety {
  import opened Common
  import opened ZmqServer

  /** What context i has to answer: what its handler says, except that an empty answer becomes four zero bytes. */
  function Answer(h: Handlers, i: nat, data: string): string {
    var answer := if h.pre(i, data).Some? then h.pre(i, data).value else h.handle(i, data);
    if answer == "" then "\0\0\0\0" else answer
  }

  /** An even entry is a request, an odd one the handler's answer to the request before it. */
  ghost predicate EntryOk(h: Handlers, i: nat, log: seq<Entry>, k: nat)
    requires k < |log|
  {
    if k % 2 == 0 then log[k].Received?
    else log[k-1].Received? && log[k] == Replied(Answer(h, i, log[k-1].data))
  }

  /** Requests and replies strictly alternate, and each reply answers the request before it. */
  ghost predicate Alternates(h: Handlers, i: nat, log: seq<Entry>) {
    forall k :: 0 <= k < |log| ==> EntryOk(h, i, log, k)
  }

  predicate Outstanding(log: seq<Entry>) { |log| % 2 == 1 }

  /** The request just received, still to be answered, is `data`. */
  predicate Awaits(log: seq<Entry>, data: string) {
    Outstanding(log) && log[|log|-1] == Received(data)
  }

  predicate Held(s: Server, i: nat) { s.poll.Holding? && i in s.poll.messages }
  predicate Taken(s: Server, i: nat) { s.ui.Handling? && i in s.ui.taken }

  ghost predicate InTodo(s: Server, i: nat) {
    s.ui.Handling? && exists k :: 0 <= k < |s.ui.todo| && s.ui.todo[k].0 == i
  }

  ghost predicate TodoOk(h: Handlers, s: Server) {
    s.ui.Handling? ==>
      && (forall j, k :: 0 <= j < k < |s.ui.todo| ==> s.ui.todo[j].0 < s.ui.todo[k].0)
      && (forall k :: 0 <= k < |s.ui.todo| ==>
            var (i, data) := s.ui.todo[k];
            i in s.ui.taken && i < |s.logs| && Awaits(s.logs[i], data) && h.pre(i, data).None?)
  }

  ghost predicate ContextOk(h: Handlers, s: Server, i: nat)
    requires i < |s.contexts| == |s.logs|
  {
    var c, log := s.contexts[i], s.logs[i];
    && Alternates(h, i, log)
    && (s.poll.Polling? && i in s.poll.sockets ==> !c.processing)
    && (Held(s, i) ==> !c.processing && Awaits(log, s.poll.messages[i]))
    && (Taken(s, i) ==> c.processing && (!InTodo(s, i) ==> !Outstanding(log)))
    && (c.processing && !Taken(s, i) ==> Awaits(log, c.data) && h.pre(i, c.data).None? && s.posted > 0)
    && (!c.processing && !Held(s, i) ==> !Outstanding(log))
  }

  ghost predicate Inv(h: Handlers, s: Server) {
    && |s.contexts| == |s.logs|
    && (s.poll.Polling? ==> forall i :: i in s.poll.sockets ==> i < |s.contexts|)
    && TodoOk(h, s)
    && forall i :: 0 <= i < |s.contexts| ==> ContextOk(h, s, i)
  }

  lemma InitialInv(h: Handlers, n: nat)
    ensures Inv(h, Initial(n))
  {
  }

  lemma {:induction false} TodoIs(cs: seq<Context>)
    ensures forall j, k :: 0 <= j < k < |Todo(cs)| ==> Todo(cs)[j].0 < Todo(cs)[k].0
    ensures forall k :: 0 <= k < |Todo(cs)| ==>
              var (i, data) := Todo(cs)[k];
              i < |cs| && cs[i].processing && cs[i].data == data
    ensures forall i :: 0 <= i < |cs| && cs[i].processing ==> exists k :: 0 <= k < |Todo(cs)| && Todo(cs)[k].0 == i
  {
    if cs == [] {
    } else {
      var r, n, t := cs[..|cs|-1], |cs| - 1, Todo(cs);
      TodoIs(r);
      assert t == Todo(r) + if cs[n].processing then [(n, cs[n].data)] else [];
      forall k | 0 <= k < |t| ensures t[k].0 < |cs| && cs[t[k].0].processing && cs[t[k].0].data == t[k].1 {
        if k < |Todo(r)| { assert t[k] == Todo(r)[k]; }
      }
      forall i | 0 <= i < |cs| && cs[i].processing ensures exists k :: 0 <= k < |t| && t[k].0 == i {
        if i < n {
          assert r[i].processing;
          var k :| 0 <= k < |Todo(r)| && Todo(r)[k].0 == i;
          assert t[k] == Todo(r)[k];
        } else {
          assert t[|Todo(r)|].0 == i;
        }
      }
    }
  }

  lemma BuildKeeps(h: Handlers, s: Server)
    requires Inv(h, s) && Enabled(s, Build)
    ensures Inv(h, Step(h, s, Build))
  {
    var s' := Step(h, s, Build);
    forall i | 0 <= i < |s.contexts| ensures ContextOk(h, s', i) { assert ContextOk(h, s, i); }
  }

  lemma AlternatesReceive(h: Handlers, i: nat, log: seq<Entry>, data: string)
    requires Alternates(h, i, log) && !Outstanding(log)
    ensures var log' := log + [Received(data)];
            Alternates(h, i, log') && Awaits(log', data)
  {
    AlternatesSnoc(h, i, log, Received(data));
  }

  lemma AlternatesSnoc(h: Handlers, i: nat, log: seq<Entry>, e: Entry)
    requires Alternates(h, i, log)
    requires if Outstanding(log) then log[|log|-1].Received? && e == Replied(Answer(h, i, log[|log|-1].data))
             else e.Received?
    ensures Alternates(h, i, log + [e])
  {
    var log' := log + [e];
    forall k | 0 <= k < |log'| ensures EntryOk(h, i, log', k) {
      if k < |log| { assert EntryOk(h, i, log, k); }
    }
  }

  lemma WakeKeeps(h: Handlers, s: Server, e: Event)
    requires Inv(h, s) && Enabled(s, e) && e.Wake?
    ensures Inv(h, Step(h, s, e))
  {
    var s' := Step(h, s, e);
    forall i | 0 <= i < |s.contexts| ensures ContextOk(h, s', i) {
      assert ContextOk(h, s, i);
      assert InTodo(s', i) == InTodo(s, i) && Taken(s', i) == Taken(s, i) && !Held(s, i);
      if i in e.messages {
        assert i in s.poll.sockets && !s.contexts[i].processing;
        AlternatesReceive(h, i, s.logs[i], e.messages[i]);
      }
    }
    if s.ui.Handling? {
      forall k | 0 <= k < |s.ui.todo| ensures s'.logs[s.ui.todo[k].0] == s.logs[s.ui.todo[k].0] {
        assert ContextOk(h, s, s.ui.todo[k].0);
        assert Taken(s, s.ui.todo[k].0);
      }
    }
  }

  lemma AlternatesReply(h: Handlers, i: nat, log: seq<Entry>, data: string)
    requires Alternates(h, i, log) && Awaits(log, data)
    ensures var log' := log + [Replied(Answer(h, i, data))];
            Alternates(h, i, log') && !Outstanding(log')
  {
    AlternatesSnoc(h, i, log, Replied(Answer(h, i, data)));
  }

  lemma ProcessKeeps(h: Handlers, s: Server)
    requires Inv(h, s) && Enabled(s, Process)
    ensures Inv(h, Step(h, s, Process))
  {
    var s' := Step(h, s, Process);
    forall i | 0 <= i < |s.contexts| ensures ContextOk(h, s', i) {
      assert ContextOk(h, s, i);
      assert InTodo(s', i) == InTodo(s, i) && Taken(s', i) == Taken(s, i);
      if Held(s, i) {
        var data := s.poll.messages[i];
        if h.pre(i, data).Some? {
          AlternatesReply(h, i, s.logs[i], data);
        } else {
          assert Deferred(h, s.poll.messages, i) && s'.posted > 0;
        }
      }
    }
    if s.ui.Handling? {
      forall k | 0 <= k < |s.ui.todo| ensures s'.logs[s.ui.todo[k].0] == s.logs[s.ui.todo[k].0] {
        assert ContextOk(h, s, s.ui.todo[k].0);
        assert Taken(s, s.ui.todo[k].0);
      }
    }
  }

  lemma TakeKeeps(h: Handlers, s: Server)
    requires Inv(h, s) && Enabled(s, Take)
    ensures Inv(h, Step(h, s, Take))
  {
    var s' := Step(h, s, Take);
    TodoIs(s.contexts);
    assert TodoOk(h, s') by {
      forall k | 0 <= k < |s'.ui.todo|
        ensures var (i, data) := s'.ui.todo[k];
                i in s'.ui.taken && i < |s'.logs| && Awaits(s'.logs[i], data) && h.pre(i, data).None?
      {
        assert ContextOk(h, s, s'.ui.todo[k].0);
      }
    }
    forall i | 0 <= i < |s.contexts| ensures ContextOk(h, s', i) { assert ContextOk(h, s, i); }
  }

  lemma ReplyKeeps(h: Handlers, s: Server)
    requires Inv(h, s) && Enabled(s, Reply)
    ensures Inv(h, Step(h, s, Reply))
  {
    var s' := Step(h, s, Reply);
    var (r, data) := s.ui.todo[0];
    assert s'.ui.todo == s.ui.todo[1..];
    assert forall k :: 0 <= k < |s'.ui.todo| ==> s'.ui.todo[k] == s.ui.todo[k+1];
    forall i | 0 <= i < |s.contexts| ensures ContextOk(h, s', i) {
      assert ContextOk(h, s, i);
      if i == r {
        AlternatesReply(h, r, s.logs[r], data);
      } else if InTodo(s, i) {
        var k :| 0 <= k < |s.ui.todo| && s.ui.todo[k].0 == i;
        assert s'.ui.todo[k-1].0 == i;
      }
      assert Taken(s', i) == Taken(s, i) && s'.contexts == s.contexts && s'.poll == s.poll;
    }
  }

  /** No context was activated, and left to a later task, after the present task copied its contexts. */
  ghost predicate NoStray(s: Server) {
    forall i :: 0 <= i < |s.contexts| && s.contexts[i].processing ==> Taken(s, i)
  }

  /** The final reset keeps the invariant exactly when it resets nothing but what the task answered. */
  lemma FinishKeepsExactly(h: Handlers, s: Server)
    requires Inv(h, s) && Enabled(s, Finish)
    ensures Inv(h, Step(h, s, Finish)) <==> NoStray(s)
  {
    var s' := Step(h, s, Finish);
    if NoStray(s) {
      forall i | 0 <= i < |s.contexts| ensures ContextOk(h, s', i) { assert ContextOk(h, s, i); }
    } else {
      var i :| 0 <= i < |s.contexts| && s.contexts[i].processing && !Taken(s, i);
      assert ContextOk(h, s, i);
      assert !ContextOk(h, s', i);
    }
  }

  lemma StepKeeps(h: Handlers, s: Server, e: Event)
    requires Inv(h, s) && (e.Finish? && Enabled(s, e) ==> NoStray(s))
    ensures Inv(h, Step(h, s, e))
  {
    if Enabled(s, e) {
      match e
      case Build => BuildKeeps(h, s);
      case Wake(_) => WakeKeeps(h, s, e);
      case Process => ProcessKeeps(h, s);
      case Take => TakeKeeps(h, s);
      case Reply => ReplyKeeps(h, s);
      case Finish => FinishKeepsExactly(h, s);
    }
  }

  // ----- when at most one handler defers -----

  ghost predicate Defers(h: Handlers, i: nat) {
    exists data :: h.pre(i, data).None?
  }

  ghost predicate AtMostOneDefers(h: Handlers, n: nat) {
    forall i, j :: 0 <= i < j < n ==> !(Defers(h, i) && Defers(h, j))
  }

  /** A task is in the queue exactly when a context waits for it, and a running task has that context. */
  ghost predicate OneAtATime(h: Handlers, s: Server) {
    && (forall i :: 0 <= i < |s.contexts| && s.contexts[i].processing ==> Defers(h, i))
    && (s.ui.Handling? ==>
          s.posted == 0 && exists i :: 0 <= i < |s.contexts| && Taken(s, i) && s.contexts[i].processing)
    && (s.ui.Waiting? && s.posted > 0 ==>
          s.posted == 1 && exists i :: 0 <= i < |s.contexts| && s.contexts[i].processing)
  }

  lemma OneStepKeeps(h: Handlers, s: Server, e: Event)
    requires Inv(h, s) && OneAtATime(h, s) && AtMostOneDefers(h, |s.contexts|)
    ensures Inv(h, Step(h, s, e)) && OneAtATime(h, Step(h, s, e)) && |Step(h, s, e).contexts| == |s.contexts|
  {
    assert s.ui.Handling? ==> NoStray(s);
    StepKeeps(h, s, e);
    if Enabled(s, e) {
      var s' := Step(h, s, e);
      if e.Process? {
        OneProcessKeeps(h, s);
      } else if e.Take? {
        var i :| 0 <= i < |s.contexts| && s.contexts[i].processing;
        assert Taken(s', i) && s'.contexts[i].processing;
      } else if e.Finish? {
        assert s'.posted == 0;
      } else {
        assert s'.contexts == s.contexts;
        assert forall i :: Taken(s', i) == Taken(s, i);
      }
    }
  }

  lemma OneProcessKeeps(h: Handlers, s: Server)
    requires Inv(h, s) && OneAtATime(h, s) && AtMostOneDefers(h, |s.contexts|) && Enabled(s, Process)
    ensures OneAtATime(h, Step(h, s, Process))
  {
    var s', m := Step(h, s, Process), s.poll.messages;
    assert forall j :: 0 <= j < |s.contexts| && s.contexts[j].processing ==> Defers(h, j);
    forall i | 0 <= i < |s.contexts| && Deferred(h, m, i)
      ensures forall j :: 0 <= j < |s.contexts| ==> !s.contexts[j].processing
    {
      assert ContextOk(h, s, i) && Held(s, i) && !s.contexts[i].processing;
      assert Defers(h, i);
    }
    if exists i :: 0 <= i < |s.contexts| && Deferred(h, m, i) {
      var i :| 0 <= i < |s.contexts| && Deferred(h, m, i);
      assert s'.contexts[i].processing;
      assert !s.ui.Handling? && s.posted == 0;
    } else {
      forall i | 0 <= i < |s.contexts| ensures s'.contexts[i].processing == s.contexts[i].processing {
        assert ContextOk(h, s, i) && !Deferred(h, m, i);
        assert i in m ==> Held(s, i);
      }
      assert forall i :: Taken(s', i) == Taken(s, i);
    }
  }

  lemma {:induction false} OneRunKeeps(h: Handlers, n: nat, es: seq<Event>)
    requires AtMostOneDefers(h, n)
    ensures var s := Run(h, Initial(n), es); Inv(h, s) && OneAtATime(h, s) && |s.contexts| == n
  {
    if es == [] {
      InitialInv(h, n);
    } else {
      OneRunKeeps(h, n, es[..|es|-1]);
      OneStepKeeps(h, Run(h, Initial(n), es[..|es|-1]), es[|es|-1]);
    }
  }

  /** Nothing is left to do for either thread. */
  predicate Quiet(s: Server) {
    (s.poll.Idle? || s.poll.Polling?) && s.ui.Waiting? && s.posted == 0
  }

  /** Strict alternation so far, and everything answered once both threads are quiet. */
  ghost predicate Answered(h: Handlers, s: Server) {
    forall i :: 0 <= i < |s.logs| ==> Alternates(h, i, s.logs[i]) && (Quiet(s) ==> !Outstanding(s.logs[i]))
  }

  /** With at most one deferring context, whatever the interleaving. */
  lemma OneContextAnswers(h: Handlers, n: nat, es: seq<Event>)
    requires AtMostOneDefers(h, n)
    ensures Answered(h, Run(h, Initial(n), es))
  {
    OneRunKeeps(h, n, es);
    var s := Run(h, Initial(n), es);
    forall i | 0 <= i < |s.logs| ensures Alternates(h, i, s.logs[i]) && (Quiet(s) ==> !Outstanding(s.logs[i])) {
      assert ContextOk(h, s, i);
    }
  }

  /**
   In every such run, requests and replies take turns, and every reply is the
   early answer of the handler to the request before it, if it gives one, and its
   late answer if not: unchanged, or four zero bytes where the handler's is empty.
   */
  lemma RepliesAreTheHandlers(h: Handlers, n: nat, es: seq<Event>, i: nat, k: nat)
    requires AtMostOneDefers(h, n) && i < |Run(h, Initial(n), es).logs| && k < |Run(h, Initial(n), es).logs[i]|
    ensures var log := Run(h, Initial(n), es).logs[i];
            if k % 2 == 0 then log[k].Received?
            else
              && log[k-1].Received? && log[k].Replied?
              && var answer := match h.pre(i, log[k-1].data)
                               case Some(early) => early
                               case None => h.handle(i, log[k-1].data);
                 && (answer != "" ==> log[k].reply == answer)
                 && (answer == "" ==> log[k].reply == ['\0', '\0', '\0', '\0'])
  {
    OneContextAnswers(h, n, es);
    assert Alternates(h, i, Run(h, Initial(n), es).logs[i]);
    assert EntryOk(h, i, Run(h, Initial(n), es).logs[i], k);
  }

  // ----- when two handlers defer -----

  ghost function LosingRun(a: nat, x: string, b: nat, y: string): seq<Event> {
    Receiving(a, x) + [Take] + Receiving(b, y) + LOSING_TAIL
  }

  ghost function Receiving(a: nat, x: string): seq<Event> {
    [Build, Wake(map[a := x]), Process]
  }

  const LOSING_TAIL := [Reply, Finish, Take, Finish, Build]

  lemma RunTake(h: Handlers, s: Server, es: seq<Event>, k: nat)
    requires k < |es|
    ensures Run(h, s, es[..k+1]) == Step(h, Run(h, s, es[..k]), es[k])
  {
    assert es[..k+1][..k] == es[..k];
  }

  lemma {:induction false} TodoOne(cs: seq<Context>, a: nat)
    requires a < |cs| && forall i :: 0 <= i < |cs| ==> (cs[i].processing <==> i == a)
    ensures Todo(cs) == [(a, cs[a].data)]
  {
    if a == |cs| - 1 { TodoNone(cs[..a]); } else { TodoOne(cs[..|cs|-1], a); }
  }

  lemma {:induction false} TodoNone(cs: seq<Context>)
    requires forall i :: 0 <= i < |cs| ==> !cs[i].processing
    ensures Todo(cs) == []
  {
    if cs == [] {
    } else {
      TodoNone(cs[..|cs|-1]);
    }
  }

  /** The poll thread receives a request on `b` that has to wait. */
  lemma Activates(h: Handlers, s: Server, busy: set<nat>, b: nat, y: string)
    requires b < |s.contexts| == |s.logs| && b !in busy && h.pre(b, y).None? && s.poll == Idle && s.logs[b] == []
    requires forall i :: 0 <= i < |s.contexts| ==> (s.contexts[i].processing <==> i in busy)
    ensures var s' := Run(h, s, Receiving(b, y));
            && |s'.contexts| == |s.contexts| == |s'.logs|
            && s'.poll == Idle && s'.posted == s.posted + 1 && s'.ui == s.ui
            && (forall i :: 0 <= i < |s.contexts| ==> (s'.contexts[i].processing <==> i in busy || i == b))
            && (forall i :: 0 <= i < |s.contexts| && i != b ==> s'.logs[i] == s.logs[i])
            && s'.contexts[b].data == y && s'.logs[b] == [Received(y)]
  {
    var es := Receiving(b, y);
    forall k | 0 <= k < 3 ensures Run(h, s, es[..k+1]) == Step(h, Run(h, s, es[..k]), es[k]) {
      RunTake(h, s, es, k);
    }
    assert es[..0] == [] && es[..3] == es;
    var s1 := Run(h, s, es[..1]);
    assert s1.poll == Polling(ListeningSockets(s.contexts)) && b in s1.poll.sockets;
    var s2 := Run(h, s, es[..2]);
    assert s2.poll == Holding(map[b := y]) && s2.logs[b] == [] + [Received(y)] && s2.contexts == s.contexts;
    assert Deferred(h, map[b := y], b);
  }

  lemma {:induction false} RunConcat(h: Handlers, s: Server, a: seq<Event>, b: seq<Event>)
    ensures Run(h, s, a + b) == Run(h, Run(h, s, a), b)
  {
    if b == [] {
      assert a + b == a;
    } else {
      assert (a + b)[..|a + b|-1] == a + b[..|b|-1];
      RunConcat(h, s, a, b[..|b|-1]);
    }
  }

  lemma TakesOnly(h: Handlers, s: Server, a: nat)
    requires a < |s.contexts| && s.ui.Waiting? && s.posted == 1
    requires forall i :: 0 <= i < |s.contexts| ==> (s.contexts[i].processing <==> i == a)
    ensures var s' := Step(h, s, Take);
            && s'.ui == Handling({a}, [(a, s.contexts[a].data)])
            && s'.posted == 0 && s'.logs == s.logs && s'.poll == s.poll
            && |s'.contexts| == |s.contexts|
            && (forall i :: 0 <= i < |s.contexts| ==> (s'.contexts[i].processing <==> i == a))
  {
    TodoOne(s.contexts, a);
    assert TakenContexts(s.contexts) == {a};
  }

  /** The first half of the losing run: `a` is being answered when `b` is activated. */
  lemma Interleaved(h: Handlers, n: nat, a: nat, x: string, b: nat, y: string) returns (s: Server)
    requires a < n && b < n && a != b && h.pre(a, x).None? && h.pre(b, y).None?
    ensures s == Run(h, Initial(n), Receiving(a, x) + [Take] + Receiving(b, y))
    ensures |s.contexts| == n == |s.logs| && s.poll == Idle && s.posted == 1
    ensures s.ui == Handling({a}, [(a, x)])
    ensures forall i :: 0 <= i < n ==> (s.contexts[i].processing <==> i == a || i == b)
    ensures s.logs[b] == [Received(y)]
  {
    var first := Receiving(a, x);
    Activates(h, Initial(n), {}, a, x);
    var s3 := Run(h, Initial(n), first);
    RunTake(h, Initial(n), first + [Take], 3);
    assert (first + [Take])[..4] == first + [Take] && (first + [Take])[..3] == first;
    TakesOnly(h, s3, a);
    var s4 := Run(h, Initial(n), first + [Take]);
    Activates(h, s4, {a}, b, y);
    RunConcat(h, Initial(n), first + [Take], Receiving(b, y));
    s := Run(h, Initial(n), first + [Take] + Receiving(b, y));
  }

  /** The second half: the reset also covers `b`, whose own task then finds nothing to do. */
  lemma TailLoses(h: Handlers, s: Server, a: nat, x: string, b: nat)
    requires a < |s.logs| == |s.contexts| && b < |s.logs| && a != b
    requires s.poll == Idle && s.posted == 1 && s.ui == Handling({a}, [(a, x)])
    ensures var s' := Run(h, s, LOSING_TAIL);
            |s'.logs| == |s.logs| && Quiet(s') && s'.logs[b] == s.logs[b]
  {
    var es := LOSING_TAIL;
    forall k | 0 <= k < 5 ensures Run(h, s, es[..k+1]) == Step(h, Run(h, s, es[..k]), es[k]) {
      RunTake(h, s, es, k);
    }
    assert es[..0] == [] && es[..5] == es;
    var s1 := Run(h, s, es[..1]);
    assert s1.ui == Handling({a}, []) && s1.logs[b] == s.logs[b];
    var s2 := Run(h, s, es[..2]);
    TodoNone(s2.contexts);
    var s3 := Run(h, s, es[..3]);
    assert s3.ui.Handling? && s3.ui.todo == [] && s3.posted == 0;
  }

  /** Two deferring contexts are enough for a run that goes quiet with a request never answered. */
  lemma TwoContextsLose(h: Handlers, n: nat, a: nat, x: string, b: nat, y: string)
    requires a < n && b < n && a != b && h.pre(a, x).None? && h.pre(b, y).None?
    ensures var s := Run(h, Initial(n), LosingRun(a, x, b, y));
            |s.logs| == n && Quiet(s) && s.logs[b] == [Received(y)]
  {
    var s := Interleaved(h, n, a, x, b, y);
    TailLoses(h, s, a, x, b);
    RunConcat(h, Initial(n), Receiving(a, x) + [Take] + Receiving(b, y), LOSING_TAIL);
  }

  /** Exactly when every interleaving answers every request. */
  lemma AnswersAllExactly(h: Handlers, n: nat)
    ensures (forall es :: Answered(h, Run(h, Initial(n), es))) <==> AtMostOneDefers(h, n)
  {
    if AtMostOneDefers(h, n) {
      forall es ensures Answered(h, Run(h, Initial(n), es)) { OneContextAnswers(h, n, es); }
    } else {
      var a, b :| 0 <= a < b < n && Defers(h, a) && Defers(h, b);
      var x :| h.pre(a, x).None?;
      var y :| h.pre(b, y).None?;
      TwoContextsLose(h, n, a, x, b, y);
      assert !Answered(h, Run(h, Initial(n), LosingRun(a, x, b, y)));
    }
  }
}
