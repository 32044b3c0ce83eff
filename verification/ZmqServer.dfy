/** The reply server: REP contexts, shared under a mutex by a poll thread and the UI thread. */
module ZmqServer {
  import opened Common

  datatype Context = Context(processing: bool, data: string)

  /** What has happened on a socket. */
  datatype Entry = Received(data: string) | Replied(reply: string)

  datatype PollThread =
    | Idle
    | Polling(sockets: set<nat>)           // the poll set built from the listening contexts
    | Holding(messages: map<nat, string>)  // messages received, ProcessEvent's lock not yet taken

  datatype UiThread =
    | Waiting
    | Handling(taken: set<nat>, todo: seq<(nat, string)>)  // the contexts copied, and those left to answer

  /**
   The poll thread receives requests, the UI thread answers them. Each critical
   section, each receive and each reply is one step; the steps of the two threads
   interleave freely. Sockets are numbered by their context.
   */
  datatype Server = Server(
    contexts: seq<Context>,
    logs: seq<seq<Entry>>,
    poll: PollThread,
    ui: UiThread,
    posted: nat)                           // ProcessRequest tasks in the UI queue

  /** The registered handlers, by context: an early answer, or the answer computed on the UI thread. */
  datatype Handlers = Handlers(pre: (nat, string) -> Option<string>, handle: (nat, string) -> string)

  datatype Event =
    | Build                                // the poll thread builds its poll set
    | Wake(messages: map<nat, string>)     // zmq_poll returns; the signalled sockets are read
    | Process                              // ProcessEvent's critical section
    | Take                                 // ProcessRequestImpl's first critical section
    | Reply                                // one handler call and its zmq_send
    | Finish                               // ProcessRequestImpl's last critical section

  function Initial(n: nat): Server {
    Server(seq(n, _ => Context(false, "")), seq(n, _ => []), Idle, Waiting, 0)
  }

  /** An empty reply is sent as four zero bytes. */
  function Padded(reply: string): string {
    if reply == "" then ['\0', '\0', '\0', '\0'] else reply
  }

  // ----- the critical sections -----

  /** Does message `i` have to wait for the UI thread? */
  predicate Deferred(h: Handlers, messages: map<nat, string>, i: nat) {
    i in messages && h.pre(i, messages[i]).None?
  }

  function ProcessContext(h: Handlers, messages: map<nat, string>, i: nat, c: Context): Context {
    if i !in messages then c
    else if h.pre(i, messages[i]).Some? then Context(false, messages[i])
    else Context(true, messages[i])
  }

  function ProcessLog(h: Handlers, messages: map<nat, string>, i: nat, log: seq<Entry>): seq<Entry> {
    if i in messages && h.pre(i, messages[i]).Some? then log + [Replied(Padded(h.pre(i, messages[i]).value))] else log
  }

  function ProcessContexts(h: Handlers, messages: map<nat, string>, cs: seq<Context>): (r: seq<Context>)
    ensures |r| == |cs|
  {
    seq(|cs|, i requires 0 <= i < |cs| => ProcessContext(h, messages, i, cs[i]))
  }

  function ProcessLogs(h: Handlers, messages: map<nat, string>, logs: seq<seq<Entry>>): (r: seq<seq<Entry>>)
    ensures |r| == |logs|
  {
    seq(|logs|, i requires 0 <= i < |logs| => ProcessLog(h, messages, i, logs[i]))
  }

  function TakenContexts(cs: seq<Context>): set<nat> {
    set i: nat | i < |cs| && cs[i].processing
  }

  /** The processing contexts with their data, in order. */
  function Todo(cs: seq<Context>): seq<(nat, string)> {
    if cs == [] then []
    else Todo(cs[..|cs|-1]) + if cs[|cs|-1].processing then [(|cs| - 1, cs[|cs|-1].data)] else []
  }

  /** Copying a context to be answered moves its data out. */
  function MovedOut(cs: seq<Context>): (r: seq<Context>)
    ensures |r| == |cs|
  {
    seq(|cs|, i requires 0 <= i < |cs| => if cs[i].processing then Context(true, "") else cs[i])
  }

  function AllListening(cs: seq<Context>): (r: seq<Context>)
    ensures |r| == |cs|
  {
    seq(|cs|, i requires 0 <= i < |cs| => cs[i].(processing := false))
  }

  function ListeningSockets(cs: seq<Context>): set<nat> {
    set i: nat | i < |cs| && !cs[i].processing
  }

  predicate Enabled(s: Server, e: Event) {
    match e
    case Build => s.poll.Idle?
    case Wake(messages) =>
      s.poll.Polling? && messages.Keys <= s.poll.sockets && forall i :: i in messages ==> i < |s.logs|
    case Process => s.poll.Holding?
    case Take => s.ui.Waiting? && s.posted > 0
    case Reply => s.ui.Handling? && s.ui.todo != [] && s.ui.todo[0].0 < |s.logs|
    case Finish => s.ui.Handling? && s.ui.todo == []
  }

  function ReceiveLogs(messages: map<nat, string>, logs: seq<seq<Entry>>): (r: seq<seq<Entry>>)
    ensures |r| == |logs|
  {
    seq(|logs|, i requires 0 <= i < |logs| => if i in messages then logs[i] + [Received(messages[i])] else logs[i])
  }

  /** One step of either thread; an event that cannot happen changes nothing. */
  function Step(h: Handlers, s: Server, e: Event): Server {
    if !Enabled(s, e) then s else
    match e
    case Build => s.(poll := Polling(ListeningSockets(s.contexts)))
    case Wake(messages) => s.(poll := Holding(messages), logs := ReceiveLogs(messages, s.logs))
    case Process =>
      var m := s.poll.messages;
      s.(contexts := ProcessContexts(h, m, s.contexts), logs := ProcessLogs(h, m, s.logs), poll := Idle,
         posted := s.posted + if exists i :: 0 <= i < |s.contexts| && Deferred(h, m, i) then 1 else 0)
    case Take =>
      s.(ui := Handling(TakenContexts(s.contexts), Todo(s.contexts)),
         contexts := MovedOut(s.contexts), posted := s.posted - 1)
    case Reply =>
      var (i, data) := s.ui.todo[0];
      s.(ui := s.ui.(todo := s.ui.todo[1..]), logs := s.logs[i := s.logs[i] + [Replied(Padded(h.handle(i, data)))]])
    case Finish => s.(ui := Waiting, contexts := AllListening(s.contexts))
  }

  function Run(h: Handlers, s: Server, es: seq<Event>): Server {
    if es == [] then s else Step(h, Run(h, s, es[..|es|-1]), es[|es|-1])
  }
}
