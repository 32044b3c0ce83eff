/** The loops of the server's critical sections, against the step model. */
module ZmqServerNode {
  import opened ZmqServer

  class ZmqServerNode {
    const h: Handlers
    var contexts: seq<Context>
    var logs: seq<seq<Entry>>
    var posted: nat

    constructor (h: Handlers, n: nat)
      ensures this.h == h && contexts == Initial(n).contexts && logs == Initial(n).logs && posted == 0
    {
      this.h, contexts, logs, posted := h, seq(n, _ => Context(false, "")), seq(n, _ => []), 0;
    }

    /** ProcessEvent, from its lock to the posting of ProcessRequest. */
    method ProcessEvent(messages: map<nat, string>)
      requires |contexts| == |logs|
      modifies this
      ensures contexts == ProcessContexts(h, messages, old(contexts))
      ensures logs == ProcessLogs(h, messages, old(logs))
      ensures posted == old(posted) + if exists i :: 0 <= i < |old(contexts)| && Deferred(h, messages, i) then 1 else 0
    {
      var activeRequest := 0;
      for i := 0 to |contexts|
        invariant |contexts| == |logs| == |old(contexts)| && posted == old(posted)
        invariant forall j :: 0 <= j < i ==> contexts[j] == ProcessContext(h, messages, j, old(contexts)[j])
        invariant forall j :: i <= j < |contexts| ==> contexts[j] == old(contexts)[j]
        invariant forall j :: 0 <= j < i ==> logs[j] == ProcessLog(h, messages, j, old(logs)[j])
        invariant forall j :: i <= j < |logs| ==> logs[j] == old(logs)[j]
        invariant activeRequest >= 0 && (activeRequest > 0 <==> exists j :: 0 <= j < i && Deferred(h, messages, j))
      {
        ghost var before := activeRequest;
        if i in messages {
          activeRequest := activeRequest + 1;
          contexts := contexts[i := Context(true, messages[i])];
          if h.pre(i, messages[i]).Some? {
            activeRequest := activeRequest - 1;
            var reply := h.pre(i, messages[i]).value;
            if reply == "" { reply := ['\0', '\0', '\0', '\0']; }
            logs := logs[i := logs[i] + [Replied(reply)]];
            contexts := contexts[i := contexts[i].(processing := false)];
          }
        }
        assert activeRequest == before + if Deferred(h, messages, i) then 1 else 0;
      }
      if activeRequest > 0 { posted := posted + 1; }
    }

    /** ProcessRequestImpl, first critical section: the processing contexts are copied, their data moved out. */
    method CopyProcessing() returns (temp: seq<(nat, string)>)
      modifies `contexts
      ensures temp == Todo(old(contexts)) && contexts == MovedOut(old(contexts))
    {
      temp := [];
      for i := 0 to |contexts|
        invariant |contexts| == |old(contexts)| && temp == Todo(old(contexts)[..i])
        invariant forall j :: 0 <= j < i ==> contexts[j] == MovedOut(old(contexts))[j]
        invariant forall j :: i <= j < |contexts| ==> contexts[j] == old(contexts)[j]
      {
        assert old(contexts)[..i+1][..i] == old(contexts)[..i];
        if contexts[i].processing {
          temp := temp + [(i, contexts[i].data)];
          contexts := contexts[i := contexts[i].(data := "")];
        }
      }
      assert old(contexts)[..|contexts|] == old(contexts);
    }

    /** ProcessRequestImpl, last critical section: every processing context listens again. */
    method ResetProcessing()
      modifies `contexts
      ensures contexts == AllListening(old(contexts))
    {
      for i := 0 to |contexts|
        invariant |contexts| == |old(contexts)|
        invariant forall j :: 0 <= j < i ==> contexts[j] == AllListening(old(contexts))[j]
        invariant forall j :: i <= j < |contexts| ==> contexts[j] == old(contexts)[j]
      {
        if contexts[i].processing {
          contexts := contexts[i := contexts[i].(processing := false)];
        }
      }
    }
  }
}
