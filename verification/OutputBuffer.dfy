/**
 The command executor's output buffer: stdout and stderr chunks are coalesced
 into single-stream messages, sent when the stream changes, when the buffer is
 long or old, when a timer fires, and before the exit message.
 */
module OutputBuffer {

  const MAX_BUFFER := 1024
  const MAX_AGE := 50_000

  /** Which streams the requester wants to see. */
  datatype Flags = Flags(showOutput: bool, showError: bool)

  datatype Message = Output(isError: bool, text: string) | Exit(code: int)

  datatype Executor = Executor(buffer: string, isStdout: bool, lastSend: int, stopped: bool, sent: seq<Message>)

  /** `sendTime`, `checkTime` and `lastTime` are the clock readings of one chunk's handler, in order. */
  datatype Event =
    | Chunk(isStdout: bool, data: string, sendTime: int, checkTime: int, lastTime: int)
    | FlushTimer(time: int)
    | Stop(code: int, time: int)

  function Started(time: int): Executor {
    Executor("", true, time, false, [])
  }

  predicate Shown(f: Flags, isStdout: bool) {
    if isStdout then f.showOutput else f.showError
  }

  function SendBuffered(f: Flags, x: Executor, time: int): Executor {
    if x.buffer == "" then x
    else
      x.(sent := x.sent + if Shown(f, x.isStdout) then [Output(!x.isStdout, x.buffer)] else [],
         buffer := "", lastSend := time)
  }

  /** The first half of a chunk's handler: a stream change sends the buffer, and the chunk is buffered. */
  function Buffered(f: Flags, x: Executor, out: bool, data: string, time: int): Executor {
    var x1 := if x.buffer != "" && x.isStdout != out then SendBuffered(f, x, time) else x;
    x1.(isStdout := out, buffer := x1.buffer + data)
  }

  function Step(f: Flags, x: Executor, e: Event): Executor {
    match e
    case Chunk(out, data, t1, t2, t3) =>
      var x2 := Buffered(f, x, out, data, t1);
      if |x2.buffer| > MAX_BUFFER || t2 - x2.lastSend > MAX_AGE then SendBuffered(f, x2, t3) else x2
    case FlushTimer(t) => SendBuffered(f, x, t)
    case Stop(code, t) =>
      var x1 := SendBuffered(f, x, t);
      x1.(sent := x1.sent + [Exit(code)], stopped := true)
  }

  function Run(f: Flags, x: Executor, es: seq<Event>): Executor {
    if es == [] then x else Step(f, Run(f, x, es[..|es|-1]), es[|es|-1])
  }

  // ----- what went in and what came out, character by character -----

  /** The characters of one stream, tagged with it, if that stream is shown. */
  function Tagged(f: Flags, isStdout: bool, text: string): seq<(bool, char)> {
    if if isStdout then f.showOutput else f.showError
    then seq(|text|, k requires 0 <= k < |text| => (isStdout, text[k]))
    else []
  }

  const ALL := Flags(true, true)

  function Flattened(ms: seq<Message>): seq<(bool, char)> {
    if ms == [] then []
    else
      var m := ms[|ms|-1];
      Flattened(ms[..|ms|-1]) + if m.Output? then Tagged(ALL, !m.isError, m.text) else []
  }

  function Input(f: Flags, es: seq<Event>): seq<(bool, char)> {
    if es == [] then []
    else
      var e := es[|es|-1];
      Input(f, es[..|es|-1]) + if e.Chunk? then Tagged(f, e.isStdout, e.data) else []
  }

  lemma TaggedAppend(f: Flags, isStdout: bool, a: string, b: string)
    ensures Tagged(f, isStdout, a + b) == Tagged(f, isStdout, a) + Tagged(f, isStdout, b)
  {
  }

  lemma FlattenedAppend(ms: seq<Message>, m: Message)
    ensures Flattened(ms + [m]) == Flattened(ms) + if m.Output? then Tagged(ALL, !m.isError, m.text) else []
  {
    assert (ms + [m])[..|ms|] == ms;
  }

  function InFlight(f: Flags, x: Executor): seq<(bool, char)> {
    Flattened(x.sent) + Tagged(f, x.isStdout, x.buffer)
  }

  lemma NothingTagged(f: Flags, isStdout: bool)
    ensures Tagged(f, isStdout, "") == []
  {
  }

  /** Sending the buffer loses and reorders nothing. */
  lemma SendKeeps(f: Flags, x: Executor, time: int)
    ensures InFlight(f, SendBuffered(f, x, time)) == InFlight(f, x)
    ensures SendBuffered(f, x, time).buffer == "" && Flattened(SendBuffered(f, x, time).sent) == InFlight(f, x)
  {
    var x' := SendBuffered(f, x, time);
    NothingTagged(f, x.isStdout);
    if x.buffer != "" && Shown(f, x.isStdout) {
      FlattenedAppend(x.sent, Output(!x.isStdout, x.buffer));
      assert Tagged(ALL, x.isStdout, x.buffer) == Tagged(f, x.isStdout, x.buffer);
    } else {
      assert Tagged(f, x.isStdout, x.buffer) == [] && x'.sent == x.sent;
    }
  }

  /** Buffering a chunk of the buffer's own stream, or of either if it is empty, appends it to what is in flight. */
  lemma BufferKeeps(f: Flags, x: Executor, out: bool, data: string)
    requires x.buffer == "" || x.isStdout == out
    ensures InFlight(f, x.(isStdout := out, buffer := x.buffer + data)) == InFlight(f, x) + Tagged(f, out, data)
  {
    TaggedAppend(f, out, x.buffer, data);
    if x.buffer == "" {
      NothingTagged(f, out);
      NothingTagged(f, x.isStdout);
      assert "" + data == data;
    }
  }

  lemma BufferedKeeps(f: Flags, x: Executor, out: bool, data: string, time: int)
    ensures InFlight(f, Buffered(f, x, out, data, time)) == InFlight(f, x) + Tagged(f, out, data)
  {
    SendKeeps(f, x, time);
    BufferKeeps(f, if x.buffer != "" && x.isStdout != out then SendBuffered(f, x, time) else x, out, data);
  }

  lemma ChunkKeeps(f: Flags, x: Executor, out: bool, data: string, t1: int, t2: int, t3: int)
    requires |x.buffer| <= MAX_BUFFER
    ensures var x' := Step(f, x, Chunk(out, data, t1, t2, t3));
            InFlight(f, x') == InFlight(f, x) + Tagged(f, out, data) && |x'.buffer| <= MAX_BUFFER
  {
    BufferedKeeps(f, x, out, data, t1);
    SendKeeps(f, Buffered(f, x, out, data, t1), t3);
  }

  lemma StepKeeps(f: Flags, x: Executor, e: Event)
    requires |x.buffer| <= MAX_BUFFER
    ensures InFlight(f, Step(f, x, e)) == InFlight(f, x) + (if e.Chunk? then Tagged(f, e.isStdout, e.data) else [])
    ensures |Step(f, x, e).buffer| <= MAX_BUFFER
  {
    match e
    case Chunk(out, data, t1, t2, t3) => ChunkKeeps(f, x, out, data, t1, t2, t3);
    case FlushTimer(t) => SendKeeps(f, x, t);
    case Stop(code, t) =>
      SendKeeps(f, x, t);
      FlattenedAppend(SendBuffered(f, x, t).sent, Exit(code));
  }

  /**
   For any sequence of chunks, timer firings and stops: the messages sent,
   followed by the buffer, are the shown part of the input, in order and tagged
   with its streams; and the buffer never holds more than 1024 characters.
   */
  lemma {:induction false} NothingLostOrReordered(f: Flags, start: int, es: seq<Event>)
    ensures var x := Run(f, Started(start), es);
            InFlight(f, x) == Input(f, es) && |x.buffer| <= MAX_BUFFER
  {
    if es == [] {
      assert Tagged(f, true, "") == [];
    } else {
      NothingLostOrReordered(f, start, es[..|es|-1]);
      StepKeeps(f, Run(f, Started(start), es[..|es|-1]), es[|es|-1]);
    }
  }

  /** On stop, all shown input has been sent before the exit message, and nothing is left in the buffer. */
  lemma StopSendsEverything(f: Flags, start: int, es: seq<Event>, code: int, time: int)
    ensures var x := Run(f, Started(start), es + [Stop(code, time)]);
            && x.stopped && x.buffer == "" && x.sent != []
            && x.sent[|x.sent|-1] == Exit(code)
            && Flattened(x.sent[..|x.sent|-1]) == Input(f, es)
  {
    NothingLostOrReordered(f, start, es);
    var x := Run(f, Started(start), es);
    assert (es + [Stop(code, time)])[..|es|] == es;
    SendKeeps(f, x, time);
    var x1 := SendBuffered(f, x, time);
    assert (x1.sent + [Exit(code)])[..|x1.sent|] == x1.sent;
  }

  predicate GoodMessage(f: Flags, m: Message) {
    m.Output? ==> m.text != "" && if m.isError then f.showError else f.showOutput
  }

  lemma SendIsGood(f: Flags, x: Executor, time: int)
    requires forall m :: m in x.sent ==> GoodMessage(f, m)
    ensures forall m :: m in SendBuffered(f, x, time).sent ==> GoodMessage(f, m)
  {
  }

  /** No message is empty, and none belongs to a stream that is not shown. */
  lemma {:induction false} MessagesAreShown(f: Flags, start: int, es: seq<Event>)
    ensures forall m :: m in Run(f, Started(start), es).sent ==> GoodMessage(f, m)
  {
    if es == [] {
    } else {
      MessagesAreShown(f, start, es[..|es|-1]);
      var x := Run(f, Started(start), es[..|es|-1]);
      match es[|es|-1]
      case Chunk(out, data, t1, t2, t3) =>
        SendIsGood(f, x, t1);
        SendIsGood(f, Buffered(f, x, out, data, t1), t3);
      case FlushTimer(t) => SendIsGood(f, x, t);
      case Stop(code, t) => SendIsGood(f, x, t);
    }
  }

  // ----- stream by stream -----

  /** The text of one stream in what was sent. */
  function Sent(ms: seq<Message>, isError: bool): string {
    if ms == [] then ""
    else
      var m := ms[|ms|-1];
      Sent(ms[..|ms|-1], isError) + if m.Output? && m.isError == isError then m.text else ""
  }

  /** The text of one stream in what the command wrote. */
  function Written(es: seq<Event>, isError: bool): string {
    if es == [] then ""
    else
      var e := es[|es|-1];
      Written(es[..|es|-1], isError) + if e.Chunk? && e.isStdout != isError then e.data else ""
  }

  function OfStream(isStdout: bool, tagged: seq<(bool, char)>): string {
    if tagged == [] then ""
    else
      var t := tagged[|tagged|-1];
      OfStream(isStdout, tagged[..|tagged|-1]) + if t.0 == isStdout then [t.1] else ""
  }

  lemma {:induction false} OfStreamAppend(isStdout: bool, a: seq<(bool, char)>, b: seq<(bool, char)>)
    ensures OfStream(isStdout, a + b) == OfStream(isStdout, a) + OfStream(isStdout, b)
  {
    if b == [] {
      assert a + b == a;
    } else {
      assert (a + b)[..|a + b|-1] == a + b[..|b|-1];
      OfStreamAppend(isStdout, a, b[..|b|-1]);
    }
  }

  lemma {:induction false} OfStreamTagged(f: Flags, isStdout: bool, stream: bool, text: string)
    ensures OfStream(isStdout, Tagged(f, stream, text)) ==
            if stream == isStdout && (if isStdout then f.showOutput else f.showError) then text else ""
  {
    if text == "" {
    } else {
      var n := |text| - 1;
      OfStreamTagged(f, isStdout, stream, text[..n]);
      var t := Tagged(f, stream, text);
      if t != [] {
        assert t[..n] == Tagged(f, stream, text[..n]) && t[n] == (stream, text[n]);
        assert text == text[..n] + [text[n]];
      }
    }
  }

  lemma {:induction false} SentIs(ms: seq<Message>, isError: bool)
    ensures OfStream(!isError, Flattened(ms)) == Sent(ms, isError)
  {
    if ms == [] {
    } else {
      var n := |ms| - 1;
      SentIs(ms[..n], isError);
      if ms[n].Output? {
        OfStreamAppend(!isError, Flattened(ms[..n]), Tagged(ALL, !ms[n].isError, ms[n].text));
        OfStreamTagged(ALL, !isError, !ms[n].isError, ms[n].text);
      } else {
        assert Flattened(ms) == Flattened(ms[..n]);
      }
    }
  }

  lemma {:induction false} WrittenIs(f: Flags, es: seq<Event>, isError: bool)
    ensures OfStream(!isError, Input(f, es)) ==
            if (if isError then f.showError else f.showOutput) then Written(es, isError) else ""
  {
    if es == [] {
    } else {
      var n := |es| - 1;
      WrittenIs(f, es[..n], isError);
      if es[n].Chunk? {
        OfStreamAppend(!isError, Input(f, es[..n]), Tagged(f, es[n].isStdout, es[n].data));
        OfStreamTagged(f, !isError, es[n].isStdout, es[n].data);
      } else {
        assert Input(f, es) == Input(f, es[..n]);
      }
    }
  }

  /** When a command has stopped, all its stdout was sent exactly if stdout is wanted, and its stderr likewise. */
  lemma EachStreamAsWanted(f: Flags, start: int, es: seq<Event>, code: int, time: int)
    ensures var sent := Run(f, Started(start), es + [Stop(code, time)]).sent;
            && Sent(sent, false) == (if f.showOutput then Written(es, false) else "")
            && Sent(sent, true) == (if f.showError then Written(es, true) else "")
  {
    StopSendsEverything(f, start, es, code, time);
    var sent := Run(f, Started(start), es + [Stop(code, time)]).sent;
    var n := |sent| - 1;
    forall isError: bool
      ensures Sent(sent, isError) ==
              if (if isError then f.showError else f.showOutput) then Written(es, isError) else ""
    {
      SentIs(sent[..n], isError);
      WrittenIs(f, es, isError);
    }
  }

  // ----- when a chunk is sent -----

  /**
   A chunk stays in the buffer with what was there, and nothing is sent, if the
   stream is the same, the buffer is not too long, and the last sending not too
   long ago. A change of stream sends what was there; length or age sends all.
   */
  lemma ChunkSendsExactly(f: Flags, x: Executor, out: bool, data: string, t1: int, t2: int, t3: int)
    ensures var x' := Step(f, x, Chunk(out, data, t1, t2, t3));
            var changed := x.buffer != "" && x.isStdout != out;
            var text := if changed then data else x.buffer + data;
            var last := if changed then t1 else x.lastSend;
            var before := if changed then SendBuffered(f, x, t1).sent else x.sent;
            && x'.isStdout == out && x'.stopped == x.stopped
            && if |text| > 1024 || t2 - last > 50_000
               then x'.buffer == "" && (text != "" ==> x'.lastSend == t3)
               else x'.buffer == text && x'.lastSend == last && x'.sent == before
  {
    assert "" + data == data;
  }

  /** A timer, and a stop, send what there is and note the time; with an empty buffer the timer does nothing at all. */
  lemma FlushSendsAll(f: Flags, x: Executor, time: int, code: int)
    ensures var x' := Step(f, x, FlushTimer(time));
            if x.buffer == "" then x' == x
            else x'.buffer == "" && x'.lastSend == time && x'.isStdout == x.isStdout && x'.stopped == x.stopped
    ensures var x' := Step(f, x, Stop(code, time));
            x'.buffer == "" && x'.stopped && x'.lastSend == (if x.buffer == "" then x.lastSend else time)
  {
  }

  // ----- how long output may wait -----

  function FirstTime(e: Event): int { if e.Chunk? then e.sendTime else e.time }
  function FinalTime(e: Event): int { if e.Chunk? then e.lastTime else e.time }

  function Latest(start: int, es: seq<Event>): int {
    if es == [] then start else FinalTime(es[|es|-1])
  }

  /** The clock readings never go back. */
  predicate Ordered(start: int, es: seq<Event>) {
    es == [] ||
    var init, e := es[..|es|-1], es[|es|-1];
    && Ordered(start, init) && Latest(start, init) <= FirstTime(e)
    && (e.Chunk? ==> e.sendTime <= e.checkTime <= e.lastTime)
  }

  lemma {:induction false} LastSendIsPast(f: Flags, start: int, es: seq<Event>)
    requires Ordered(start, es)
    ensures Run(f, Started(start), es).lastSend <= Latest(start, es)
  {
    if es == [] {
    } else {
      LastSendIsPast(f, start, es[..|es|-1]);
    }
  }

  /** The text of the chunks, one after the other. */
  function Texts(es: seq<Event>): string {
    if es == [] then "" else Texts(es[..|es|-1]) + if es[|es|-1].Chunk? then es[|es|-1].data else ""
  }

  /**
   The buffer holds exactly the text of the chunks from the k-th on, all of one
   stream, and the first of them arrived at most `MAX_AGE` before the last check.
   */
  ghost predicate WaitsSince(x: Executor, es: seq<Event>, k: nat) {
    && k < |es|
    && (forall j :: k <= j < |es| ==> es[j].Chunk? && es[j].isStdout == x.isStdout)
    && x.buffer == Texts(es[k..])
    && x.lastSend <= es[k].sendTime
    && es[|es|-1].checkTime - es[k].sendTime <= MAX_AGE
  }

  lemma TextsAppend(es: seq<Event>, e: Event)
    ensures Texts(es + [e]) == Texts(es) + if e.Chunk? then e.data else ""
  {
    assert (es + [e])[..|es|] == es;
  }

  lemma WaitsLonger(f: Flags, x: Executor, es: seq<Event>, e: Event, k: nat)
    requires WaitsSince(x, es, k) && e.Chunk? && e.isStdout == x.isStdout && x.buffer != ""
    requires Step(f, x, e).buffer != "" && e.sendTime <= e.checkTime
    ensures WaitsSince(Step(f, x, e), es + [e], k)
  {
    assert (es + [e])[k..] == es[k..] + [e];
    TextsAppend(es[k..], e);
  }

  lemma NewBuffer(f: Flags, x: Executor, e: Event)
    requires e.Chunk? && (e.isStdout != x.isStdout || x.buffer == "")
    requires Step(f, x, e).buffer != "" && x.lastSend <= e.sendTime
    ensures var x' := Step(f, x, e);
            && x'.buffer == e.data && x'.isStdout == e.isStdout
            && x'.lastSend <= e.sendTime && e.checkTime - x'.lastSend <= MAX_AGE
  {
    assert "" + e.data == e.data;
  }

  lemma WaitsAnew(f: Flags, x: Executor, es: seq<Event>, e: Event)
    requires e.Chunk? && (e.isStdout != x.isStdout || x.buffer == "")
    requires Step(f, x, e).buffer != "" && x.lastSend <= e.sendTime <= e.checkTime
    ensures WaitsSince(Step(f, x, e), es + [e], |es|)
  {
    NewBuffer(f, x, e);
    var all := es + [e];
    assert all[|es|..] == [e] && all[|es|] == e && |all| == |es| + 1;
    OneText(e);
  }

  lemma OneText(e: Event)
    requires e.Chunk?
    ensures Texts([e]) == e.data
  {
    assert [e][..0] == [];
    assert "" + e.data == e.data;
  }

  /**
   In every run, what waits in the buffer is the text of the latest chunks, all
   of one stream, and had waited at most 50 ms when the last of them was checked.
   */
  lemma {:induction false} BufferIsYoung(f: Flags, start: int, es: seq<Event>)
    requires Ordered(start, es) && Run(f, Started(start), es).buffer != ""
    ensures exists k :: WaitsSince(Run(f, Started(start), es), es, k)
  {
    if es == [] {
    } else {
      var init, e := es[..|es|-1], es[|es|-1];
      var x := Run(f, Started(start), init);
      assert es == init + [e];
      if x.buffer != "" && e.isStdout == x.isStdout {
        BufferIsYoung(f, start, init);
        var k :| WaitsSince(x, init, k);
        WaitsLonger(f, x, init, e, k);
      } else {
        LastSendIsPast(f, start, init);
        WaitsAnew(f, x, init, e);
      }
    }
  }

  // ----- the object -----

  class CommandExecutor {
    const flags: Flags
    var bufferedOutput: string
    var isStdout: bool
    var lastSendTime: int
    var stopped: bool
    var sent: seq<Message>

    ghost function State(): Executor
      reads this
    {
      Executor(bufferedOutput, isStdout, lastSendTime, stopped, sent)
    }

    constructor (flags: Flags, time: int)
      ensures this.flags == flags && State() == Started(time)
    {
      this.flags := flags;
      bufferedOutput, isStdout, lastSendTime, stopped, sent := "", true, time, false, [];
    }

    method SendBufferedOutput(time: int)
      modifies this
      ensures State() == SendBuffered(flags, old(State()), time)
    {
      if bufferedOutput != "" {
        if (flags.showOutput && isStdout) || (flags.showError && !isStdout) {
          sent := sent + [Output(!isStdout, bufferedOutput)];
        }
        bufferedOutput := "";
        lastSendTime := time;
      }
    }

    method OnOutput(isStdOut: bool, data: string, sendTime: int, checkTime: int, lastTime: int)
      modifies this
      ensures State() == Step(flags, old(State()), Chunk(isStdOut, data, sendTime, checkTime, lastTime))
    {
      if bufferedOutput != "" {
        if isStdout != isStdOut {
          SendBufferedOutput(sendTime);
        }
      }
      isStdout := isStdOut;
      bufferedOutput := bufferedOutput + data;
      if |bufferedOutput| > 1024 || checkTime - lastSendTime > 50_000 {
        SendBufferedOutput(lastTime);
      }
    }

    /** Returns whether the timer is scheduled again. */
    method FlushOutput(time: int) returns (again: bool)
      modifies this
      ensures State() == Step(flags, old(State()), FlushTimer(time)) && again == !old(stopped)
    {
      SendBufferedOutput(time);
      again := !stopped;
    }

    method OnStop(code: int, time: int)
      modifies this
      ensures State() == Step(flags, old(State()), Stop(code, time))
    {
      SendBufferedOutput(time);
      sent := sent + [Exit(code)];
      stopped := true;
    }
  }
}
