/** The client's loops, against the step model. */
module ZmqClientNode {
  import opened ZmqClient

  class ZmqClientNode {
    var context: seq<Request>
    var posted: seq<Response>

    constructor ()
      ensures context == [] && posted == []
    {
      context, posted := [], [];
    }

    /** SendRequest, once the request has gone out; a time-out that is not positive counts as none. */
    method SendRequest(socket: int, callback: int, now: int, timeout: int)
      modifies `context
      ensures context == old(context) + [Request(socket, callback, now, if timeout > 0 then timeout else 0)]
    {
      context := context + [Request(socket, callback, now, if timeout > 0 then timeout else 0)];
    }

    /** The part of Run that prepares a poll: the sockets to watch, and how long to wait. */
    method PreparePoll(id: nat, now: int) returns (seen: seq<Request>, sleep: int)
      ensures seen == context && sleep == Sleep(id, context, now)
    {
      seen := [];
      var timeout := -1;
      for k := 0 to |context|
        invariant seen == context[..k] && timeout == PollTimeout(context[..k], now)
      {
        var r := context[k];
        assert context[..k+1][..k] == context[..k] && context[..k+1] == context[..k] + [r];
        seen := seen + [r];
        if r.timeout > 0 {
          var t := r.requestTime + r.timeout - now;
          if t < 0 { t := 0; }
          if timeout == -1 || t < timeout { timeout := t; }
        }
      }
      assert context[..|context|] == context;
      sleep := if id == 0 then 1 else timeout;
    }

    /** ProcessEvent from its lock on: requests are erased in place while the list is walked. */
    method ProcessEvent(messages: map<int, string>, now: int)
      modifies this
      ensures context == Kept(old(context), messages, now)
      ensures posted == old(posted) + Responses(old(context), messages, now)
    {
      var sockets, responses := messages, [];
      var iter := 0;
      ghost var rs, done := context, 0;     // the original requests, and how many have been walked
      assert rs[..0] == [];
      NothingClaimed(messages);
      while iter < |context|
        invariant posted == old(posted)
        invariant 0 <= iter <= |context| && 0 <= done <= |rs|
        invariant context[..iter] == Kept(rs[..done], messages, now)
        invariant context[iter..] == rs[done..]
        invariant responses == Responses(rs[..done], messages, now)
        invariant sockets == Unclaimed(messages, rs[..done])
        decreases |context| - iter
      {
        var r := context[iter];
        assert r == context[iter..][0] == rs[done];
        assert context[iter+1..] == context[iter..][1..] == rs[done..][1..] == rs[done+1..];
        assert context[..iter+1] == context[..iter] + [r];
        PassStep(rs, done, messages, now);
        if r.socket in sockets {
          responses := responses + [Response(r.callback, Ok(sockets[r.socket]))];
          sockets := sockets[r.socket := ""];
          context := Erase(context, iter);
        } else if r.timeout > 0 && now > r.requestTime + r.timeout {
          responses := responses + [Response(r.callback, TimedOut)];
          context := Erase(context, iter);
        } else {
          iter := iter + 1;
        }
        done := done + 1;
      }
      assert rs[..done] == rs && context[..iter] == context;
      posted := posted + responses;
    }
  }

  /** The message table after the walked requests have moved theirs out. */
  function Unclaimed(messages: map<int, string>, walked: seq<Request>): map<int, string> {
    map s | s in messages :: if s in Sockets(walked) then "" else messages[s]
  }

  lemma NothingClaimed(messages: map<int, string>)
    ensures Unclaimed(messages, []) == messages
  {
    var u := Unclaimed(messages, []);
    assert u.Keys == messages.Keys;
    assert forall s :: s in messages ==> s !in Sockets([]) && u[s] == messages[s];
  }

  lemma PassStep(rs: seq<Request>, k: nat, messages: map<int, string>, now: int)
    requires k < |rs|
    ensures var r, m := rs[k], Unclaimed(messages, rs[..k]);
            var claimed, expired := r.socket in messages, Expired(r, now);
            && (r.socket in m <==> claimed)
            && Kept(rs[..k+1], messages, now) == Kept(rs[..k], messages, now) + (if claimed || expired then [] else [r])
            && Responses(rs[..k+1], messages, now) == Responses(rs[..k], messages, now) +
                 (if claimed then [Response(r.callback, Ok(m[r.socket]))]
                  else if expired then [Response(r.callback, TimedOut)]
                  else [])
            && Unclaimed(messages, rs[..k+1]) == if claimed then m[r.socket := ""] else m
  {
    assert rs[..k+1][..k] == rs[..k] && rs[..k+1] == rs[..k] + [rs[k]];
    SocketsAppend(rs[..k], rs[k]);
  }

  function Erase(rs: seq<Request>, k: nat): (r: seq<Request>)
    requires k < |rs|
    ensures |r| == |rs| - 1 && r[..k] == rs[..k] && r[k..] == rs[k+1..]
  {
    rs[..k] + rs[k+1..]
  }

  lemma SocketsAppend(rs: seq<Request>, r: Request)
    ensures Sockets(rs + [r]) == Sockets(rs) + {r.socket}
  {
    var all := rs + [r];
    forall s | s in Sockets(rs) ensures s in Sockets(all) {
      var k :| 0 <= k < |rs| && rs[k].socket == s;
      assert all[k].socket == s;
    }
    assert all[|rs|] == r;
  }
}
