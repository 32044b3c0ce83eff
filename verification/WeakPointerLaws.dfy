/** What each operation on a pointer does to the pointers outstanding, and what a whole run has made of them. */
module WeakPointerLaws {
  import opened WeakPointer

  // ----- one operation -----

  /** Nothing changes but the strong pointers of t and their count, by d. */
  ghost predicate StrongChanges(s: State, s': State, t: int, d: int) {
    && s'.strongCount == s.strongCount + d && s'.strong[t] == s.strong[t] + d
    && (forall u :: u != t ==> s'.strong[u] == s.strong[u])
    && s'.weak == s.weak && s'.weakCount == s.weakCount && s'.destroyedFlag == s.destroyedFlag
    && s'.deletes == s.deletes && s'.frees == s.frees && |s'.pcs| == |s.pcs|
    && forall u :: 0 <= u < |s.pcs| && u != t ==> s'.pcs[u] == s.pcs[u]
  }

  /** Nothing changes but the weak handles of t and the block's count, by d. */
  ghost predicate WeakChanges(s: State, s': State, t: int, d: int) {
    && s'.weakCount == s.weakCount + d && s'.weak[t] == s.weak[t] + d
    && (forall u :: u != t ==> s'.weak[u] == s.weak[u])
    && s'.strong == s.strong && s'.strongCount == s.strongCount && s'.destroyedFlag == s.destroyedFlag
    && s'.deletes == s.deletes && s'.frees == s.frees && |s'.pcs| == |s.pcs|
    && forall u :: 0 <= u < |s.pcs| && u != t ==> s'.pcs[u] == s.pcs[u]
  }

  ghost predicate IdleAt(s: State, t: int) { 0 <= t < |s.pcs| && s.pcs[t].Idle? }

  lemma TakeMeans(m: multiset<int>, t: int, u: int)
    ensures (m + multiset{t})[u] == m[u] + if u == t then 1 else 0
  {
  }

  lemma DropMeans(m: multiset<int>, t: int, u: int)
    requires t in m
    ensures (m - multiset{t})[u] == m[u] - if u == t then 1 else 0
  {
  }

  /** Wrapping the raw pointer, and copying a strong pointer. */
  lemma CopyAddsOne(s: State, e: Event)
    requires e.FirstAddRef? || e.AddRef?
    requires IdleAt(s, e.t) && (if e.FirstAddRef? then s.phase == Fresh && e.t == 0 else e.t in s.strong)
    ensures StrongChanges(s, Step(s, e), e.t, 1) && IdleAt(Step(s, e), e.t)
  {
    forall u ensures (s.strong + multiset{e.t})[u] == s.strong[u] + if u == e.t then 1 else 0 {
      TakeMeans(s.strong, e.t, u);
    }
  }

  /** Dropping a strong pointer: the thread goes on to delete the object exactly if it was the last one. */
  lemma ReleaseDropsOne(s: State, t: int)
    requires IdleAt(s, t) && t in s.strong
    ensures var s' := Step(s, Release(t));
            && StrongChanges(s, s', t, -1)
            && (s'.pcs[t].MustDelete? <==> s.strongCount == 1) && (s'.pcs[t].Idle? <==> s.strongCount != 1)
  {
    forall u ensures (s.strong - multiset{t})[u] == s.strong[u] - if u == t then 1 else 0 { DropMeans(s.strong, t, u); }
  }

  /** Moving a pointer of either kind takes it from one thread and gives it to the other. */
  lemma GiveMovesOne(s: State, t: int, u: int)
    requires IdleAt(s, t) && 0 <= u < |s.pcs| && u != t
    ensures t in s.strong ==>
              Step(s, Give(t, u)) == s.(strong := s.strong[t := s.strong[t] - 1][u := s.strong[u] + 1])
    ensures t in s.weak ==>
              Step(s, WeakGive(t, u)) == s.(weak := s.weak[t := s.weak[t] - 1][u := s.weak[u] + 1])
  {
    if t in s.strong {
      assert s.strong - multiset{t} + multiset{u} == s.strong[t := s.strong[t] - 1][u := s.strong[u] + 1];
    }
    if t in s.weak {
      assert s.weak - multiset{t} + multiset{u} == s.weak[t := s.weak[t] - 1][u := s.weak[u] + 1];
    }
  }

  /** Making a weak handle from the raw pointer, from a strong pointer, or from another handle. */
  lemma HandleAddsOne(s: State, e: Event)
    requires e.WeakFromRaw? || e.WeakCreate? || e.WeakCopy?
    requires IdleAt(s, e.t)
    requires e.WeakFromRaw? ==> s.phase == Fresh && e.t == 0
    requires e.WeakCreate? ==> e.t in s.strong
    requires e.WeakCopy? ==> e.t in s.weak
    ensures WeakChanges(s, Step(s, e), e.t, 1) && IdleAt(Step(s, e), e.t)
  {
    forall u ensures (s.weak + multiset{e.t})[u] == s.weak[u] + if u == e.t then 1 else 0 { TakeMeans(s.weak, e.t, u); }
  }

  /** Dropping a weak handle: the thread goes on to free the block exactly if nothing else counted on it. */
  lemma HandleDropsOne(s: State, t: int)
    requires IdleAt(s, t) && t in s.weak
    ensures var s' := Step(s, WeakRelease(t));
            && WeakChanges(s, s', t, -1)
            && (s'.pcs[t].MustFree? <==> s.weakCount == 1) && (s'.pcs[t].Idle? <==> s.weakCount != 1)
  {
    forall u ensures (s.weak - multiset{t})[u] == s.weak[u] - if u == t then 1 else 0 { DropMeans(s.weak, t, u); }
  }

  /** A load that sees zero, and a compare-and-swap that comes too late, change no pointer; the latter tries again. */
  lemma FailedAttempts(s: State, t: int)
    requires 0 <= t < |s.pcs|
    ensures s.pcs[t].Idle? && t in s.weak ==>
              Step(s, Load(t)) == if s.strongCount == 0 then s else s.(pcs := s.pcs[t := Loaded(s.strongCount)])
    ensures s.pcs[t].Loaded? && s.strongCount != s.pcs[t].oldVal ==>
              Step(s, CompareAndSwap(t)) == s.(pcs := s.pcs[t := Idle])
  {
  }

  /** The pointers, their counts and the other threads are as before. */
  ghost predicate PointersKept(s: State, s': State, t: int) {
    && s'.strong == s.strong && s'.strongCount == s.strongCount && s'.weak == s.weak
    && |s'.pcs| == |s.pcs| && forall u :: 0 <= u < |s.pcs| && u != t ==> s'.pcs[u] == s.pcs[u]
  }

  /** The steps of a destruction: object, validity of the handles, share of the block, and the block itself. */
  lemma DestructionStep(s: State, t: int)
    requires 0 <= t < |s.pcs|
    ensures s.pcs[t].MustDelete? ==>
              var s' := Step(s, Delete(t));
              && PointersKept(s, s', t) && s'.pcs[t].Destroying? && s'.deletes == s.deletes + 1
              && s'.weakCount == s.weakCount && s'.frees == s.frees && s'.destroyedFlag == s.destroyedFlag
    ensures s.pcs[t].Destroying? ==>
              var s' := Step(s, Notify(t));
              && PointersKept(s, s', t) && s'.pcs[t].Notified? && s'.destroyedFlag
              && s'.weakCount == s.weakCount && s'.frees == s.frees && s'.deletes == s.deletes
    ensures s.pcs[t].Notified? ==>
              var s' := Step(s, ReleaseBlock(t));
              && PointersKept(s, s', t) && s'.weakCount == s.weakCount - 1
              && (if s.weakCount == 1 then s'.pcs[t].MustFree? else s'.pcs[t].Idle?)
              && s'.frees == s.frees && s'.deletes == s.deletes && s'.destroyedFlag == s.destroyedFlag
    ensures s.pcs[t].MustFree? ==>
              var s' := Step(s, Free(t));
              && PointersKept(s, s', t) && s'.weakCount == s.weakCount && s'.pcs[t].Idle?
              && s'.frees == s.frees + 1 && s'.deletes == s.deletes && s'.destroyedFlag == s.destroyedFlag
  {
  }

  lemma LastHandle(s: State)
    requires Inv(s) && s.phase != Gone
    ensures (s.weak == multiset{} <==> s.weakCount == 1) && s.frees == 0
  {
    if s.weakCount == 1 { assert |s.weak| == 0; }
  }

  /**
   The release of the last strong pointer, and what the thread then does: the
   object is deleted, every handle becomes invalid, the object gives up its share
   of the block, and the block is freed exactly if no handle is left.
   */
  lemma LastReleaseDestroys(s: State, t: int)
    requires Inv(s) && IdleAt(s, t) && t in s.strong && s.strongCount == 1
    ensures var s1 := Step(s, Release(t));
            var s2 := Step(s1, Delete(t));
            var s3 := Step(s2, Notify(t));
            var s4 := Step(s3, ReleaseBlock(t));
            && s2.deletes == s.deletes + 1 && s3.destroyedFlag
            && s4.strongCount == 0 && s4.weakCount == s.weakCount - 1 && s4.weak == s.weak && s4.frees == 0
            && |s4.pcs| == |s.pcs|
            && if s.weak == multiset{} then s4.pcs[t].MustFree? && Step(s4, Free(t)).frees == 1 else s4.pcs[t].Idle?
  {
    HoldingKeeps(s, t);
    LastHandle(s);
    ReleaseDropsOne(s, t);
    var s1 := Step(s, Release(t));
    DestructionStep(s1, t);
    var s2 := Step(s1, Delete(t));
    DestructionStep(s2, t);
    var s3 := Step(s2, Notify(t));
    DestructionStep(s3, t);
    DestructionStep(Step(s3, ReleaseBlock(t)), t);
  }

  // ----- whole runs -----

  /** How many strong pointers thread t gains by this event. */
  function StrongGain(s: State, e: Event, t: int): int {
    if !Enabled(s, e) then 0
    else if e.Give? then (if e.u == t then 1 else 0) - (if e.t == t then 1 else 0)
    else if e.t != t then 0
    else if e.FirstAddRef? || e.AddRef? || e.CopyResult? then 1
    else if e.CompareAndSwap? then if s.strongCount == s.pcs[t].oldVal then 1 else 0
    else if e.Release? || e.ReleaseExtra? then -1
    else 0
  }

  /** Acquired less released, by all threads. */
  function StrongSum(s: State, es: seq<Event>): int {
    if es == [] then 0
    else
      var init, e := es[..|es|-1], es[|es|-1];
      StrongSum(s, init) + if e.Give? then 0 else StrongGain(Run(s, init), e, e.t)
  }

  function StrongSumOf(s: State, es: seq<Event>, t: int): int {
    if es == [] then 0
    else StrongSumOf(s, es[..|es|-1], t) + StrongGain(Run(s, es[..|es|-1]), es[|es|-1], t)
  }

  lemma StrongStep(s: State, e: Event, t: int)
    requires Inv(s)
    ensures Step(s, e).strong[t] == s.strong[t] + StrongGain(s, e, t)
    ensures Step(s, e).strongCount == s.strongCount + if e.Give? then 0 else StrongGain(s, e, e.t)
  {
    if Enabled(s, e) {
      if e.Give? {
        GiveStep(s, e, t);
      } else {
        OwnStep(s, e);
        if e.t != t { OthersKeepStrong(s, e, t); }
      }
    }
  }

  lemma OwnStep(s: State, e: Event)
    requires Inv(s) && Enabled(s, e) && !e.Give?
    ensures Step(s, e).strong[e.t] == s.strong[e.t] + StrongGain(s, e, e.t)
    ensures Step(s, e).strongCount == s.strongCount + StrongGain(s, e, e.t)
  {
    if e.Release? || e.ReleaseExtra? {
      assert GoodThread(s, e.t);
      DropMeans(s.strong, e.t, e.t);
    } else {
      TakeMeans(s.strong, e.t, e.t);
    }
  }

  lemma GiveStep(s: State, e: Event, t: int)
    requires e.Give? && Enabled(s, e)
    ensures Step(s, e).strong[t] == s.strong[t] + (if e.u == t then 1 else 0) - (if e.t == t then 1 else 0)
    ensures Step(s, e).strongCount == s.strongCount
  {
    DropMeans(s.strong, e.t, t);
    TakeMeans(s.strong - multiset{e.t}, e.u, t);
  }

  /** In every run, the strong count, and each thread's share of it, is what was acquired less what was released. */
  lemma {:induction false} CountFollowsRun(n: nat, es: seq<Event>, t: int)
    ensures var s := Run(Initial(n), es);
            s.strongCount == StrongSum(Initial(n), es) && s.strong[t] == StrongSumOf(Initial(n), es, t)
  {
    if es == [] {
    } else {
      CountFollowsRun(n, es[..|es|-1], t);
      Reachable(n, es[..|es|-1]);
      StrongStep(Run(Initial(n), es[..|es|-1]), es[|es|-1], t);
    }
  }
}
