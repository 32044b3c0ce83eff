/** The lock-free weak-to-strong promotion of one object, by any number of threads. */
module WeakPointer {

  /** Where a thread stands between two atomic operations. */
  datatype Pc =
    | Idle
    | Loaded(oldVal: int)     // Promote: loaded a non-zero count, about to compare-and-swap
    | Promoted                // Promote returned true: the thread owns one extra reference
    | Copied                  // promote() has also made its result pointer
    | MustDelete              // Release brought the strong count to zero: `delete this`
    | Destroying              // inside the destructor, before Notify
    | Notified                // after Notify, before the destructor releases the block
    | MustFree                // brought the block's own count to zero: `delete this` of the block

  /** The life of the object; once the count has dropped to zero, one thread carries it to its end. */
  datatype Phase = Fresh | Live | Dropped(agent: int) | InDestructor(agent: int) | AfterNotify(agent: int) | Gone

  /**
   One reference-counted object, its WeakPtrData block, and the threads, whose
   atomic operations interleave. Every outstanding strong pointer and weak handle
   is recorded under the thread that owns it.
   */
  datatype State = State(
    strongCount: int,         // object_strong_ref_count_
    weakCount: int,           // ref_count_ of the block
    destroyedFlag: bool,      // destroyed_flag_
    strong: multiset<int>,    // the owner of every outstanding strong pointer
    weak: multiset<int>,      // the owner of every weak handle
    pcs: seq<Pc>,             // one per thread
    phase: Phase,
    freers: set<int>,         // threads about to free the block
    deletes: int,             // how often the object was deleted
    frees: int)               // how often the block was freed

  datatype Event =
    | FirstAddRef(t: int)         // the creator wraps the raw pointer
    | WeakFromRaw(t: int)         // the creator makes a weak handle from the raw pointer
    | AddRef(t: int)              // copy a strong pointer
    | Give(t: int, u: int)        // move a strong pointer to another thread
    | Release(t: int)             // drop a strong pointer: the atomic decrement
    | WeakCreate(t: int)          // make a weak handle from a strong pointer
    | WeakCopy(t: int)
    | WeakGive(t: int, u: int)
    | WeakRelease(t: int)         // drop a weak handle: the atomic decrement
    | Load(t: int)                // Promote: the load, and the test against zero
    | CompareAndSwap(t: int)
    | CopyResult(t: int)          // promote(): the result pointer's AddRef
    | ReleaseExtra(t: int)        // promote(): the extra reference's Release
    | Delete(t: int)
    | Notify(t: int)
    | ReleaseBlock(t: int)        // the destructor's Release of the block
    | Free(t: int)

  /** Just constructed by thread 0: the block counts the object itself, nobody holds a strong pointer. */
  function Initial(n: nat): State {
    State(0, 1, false, multiset{}, multiset{}, seq(n, _ => Idle), Fresh, {}, 0, 0)
  }

  predicate Enabled(s: State, e: Event) {
    && 0 <= e.t < |s.pcs|
    && var pc := s.pcs[e.t];
       match e
       case FirstAddRef(t) => s.phase == Fresh && t == 0 && pc.Idle?
       case WeakFromRaw(t) => s.phase == Fresh && t == 0 && pc.Idle?
       case AddRef(t) => pc.Idle? && t in s.strong
       case Give(t, u) => pc.Idle? && t in s.strong && 0 <= u < |s.pcs|
       case Release(t) => pc.Idle? && t in s.strong
       case WeakCreate(t) => pc.Idle? && t in s.strong
       case WeakCopy(t) => pc.Idle? && t in s.weak
       case WeakGive(t, u) => pc.Idle? && t in s.weak && 0 <= u < |s.pcs|
       case WeakRelease(t) => pc.Idle? && t in s.weak
       case Load(t) => pc.Idle? && t in s.weak
       case CompareAndSwap(_) => pc.Loaded?
       case CopyResult(_) => pc.Promoted?
       case ReleaseExtra(_) => pc.Copied?
       case Delete(_) => pc.MustDelete?
       case Notify(_) => pc.Destroying?
       case ReleaseBlock(_) => pc.Notified?
       case Free(_) => pc.MustFree?
  }

  function Goto(s: State, t: int, pc: Pc): State
    requires 0 <= t < |s.pcs|
  {
    s.(pcs := s.pcs[t := pc])
  }

  function TakeStrong(s: State, t: int): State {
    s.(strongCount := s.strongCount + 1, strong := s.strong + multiset{t})
  }

  function TakeWeak(s: State, t: int): State {
    s.(weakCount := s.weakCount + 1, weak := s.weak + multiset{t})
  }

  /** The decrement of the strong count, and the branch on its new value. */
  function DropStrong(s: State, t: int): State
    requires 0 <= t < |s.pcs|
  {
    var s1 := s.(strongCount := s.strongCount - 1, strong := s.strong - multiset{t});
    if s1.strongCount == 0 then Goto(s1, t, MustDelete).(phase := Dropped(t)) else Goto(s1, t, Idle)
  }

  /** The decrement of the block's count, and the branch on its new value. */
  function DropBlock(s: State, t: int): State
    requires 0 <= t < |s.pcs|
  {
    var s1 := s.(weakCount := s.weakCount - 1);
    if s1.weakCount == 0 then Goto(s1, t, MustFree).(freers := s1.freers + {t}) else Goto(s1, t, Idle)
  }

  /** One atomic operation; an event that cannot happen changes nothing. */
  function Step(s: State, e: Event): State {
    if !Enabled(s, e) then s else
    match e
    case FirstAddRef(t) => TakeStrong(s, t).(phase := Live)
    case WeakFromRaw(t) => TakeWeak(s, t)
    case AddRef(t) => TakeStrong(s, t)
    case Give(t, u) => s.(strong := s.strong - multiset{t} + multiset{u})
    case Release(t) => DropStrong(s, t)
    case WeakCreate(t) => TakeWeak(s, t)
    case WeakCopy(t) => TakeWeak(s, t)
    case WeakGive(t, u) => s.(weak := s.weak - multiset{t} + multiset{u})
    case WeakRelease(t) => DropBlock(s.(weak := s.weak - multiset{t}), t)
    case Load(t) => if s.strongCount == 0 then s else Goto(s, t, Loaded(s.strongCount))
    case CompareAndSwap(t) =>
      if s.strongCount == s.pcs[t].oldVal then Goto(TakeStrong(s, t), t, Promoted) else Goto(s, t, Idle)
    case CopyResult(t) => Goto(TakeStrong(s, t), t, Copied)
    case ReleaseExtra(t) => DropStrong(s, t)
    case Delete(t) => Goto(s, t, Destroying).(phase := InDestructor(t), deletes := s.deletes + 1)
    case Notify(t) => Goto(s, t, Notified).(phase := AfterNotify(t), destroyedFlag := true)
    case ReleaseBlock(t) => DropBlock(s, t).(phase := Gone)
    case Free(t) => Goto(s, t, Idle).(freers := s.freers - {t}, frees := s.frees + 1)
  }

  function Run(s: State, es: seq<Event>): State {
    if es == [] then s else Step(Run(s, es[..|es|-1]), es[|es|-1])
  }

  // ----- the invariant -----

  function One(b: bool): nat { if b then 1 else 0 }

  ghost predicate Counts(s: State) {
    && s.strongCount == |s.strong|
    && s.weakCount == |s.weak| + One(s.phase != Gone)
    && (s.phase == Live <==> s.strongCount > 0)
  }

  ghost predicate Lifetimes(s: State) {
    && s.deletes == One(s.phase.InDestructor? || s.phase.AfterNotify? || s.phase == Gone)
    && s.destroyedFlag == (s.phase.AfterNotify? || s.phase == Gone)
    && s.frees >= 0 && s.frees + |s.freers| == One(s.weakCount == 0)
  }

  /** What a thread may rely on at each point. */
  ghost predicate GoodThread(s: State, t: int)
    requires 0 <= t < |s.pcs|
  {
    var pc := s.pcs[t];
    && (pc.Loaded? || pc.Promoted? || pc.Copied? ==> t in s.weak)
    && (pc.Loaded? ==> pc.oldVal > 0)
    && (pc.Promoted? ==> s.strong[t] >= 1)
    && (pc.Copied? ==> s.strong[t] >= 2)
    && (pc.MustDelete? <==> s.phase == Dropped(t))
    && (pc.Destroying? <==> s.phase == InDestructor(t))
    && (pc.Notified? <==> s.phase == AfterNotify(t))
    && (pc.MustFree? <==> t in s.freers)
  }

  ghost predicate Inv(s: State) {
    && Counts(s)
    && Lifetimes(s)
    && (forall t :: 0 <= t < |s.pcs| ==> GoodThread(s, t))
    && (forall t :: t in s.freers || t in s.strong || t in s.weak ==> 0 <= t < |s.pcs|)
    && (s.phase.Dropped? || s.phase.InDestructor? || s.phase.AfterNotify? ==> 0 <= s.phase.agent < |s.pcs|)
  }

  lemma NonEmpty(m: multiset<int>, t: int)
    requires t in m
    ensures |m| >= m[t] >= 1 && |m - multiset{t}| == |m| - 1
  {
    assert m[t := m[t]] == m;
    assert |m[t := 0]| == |m| - m[t];
  }

  /** A thread that may take a strong pointer: it has one, or is the creator, or its compare-and-swap succeeds. */
  lemma TakeStrongKeeps(s: State, t: int, pc: Pc)
    requires Inv(s) && 0 <= t < |s.pcs| && (s.phase == Fresh || s.phase == Live)
    requires pc == s.pcs[t] || (s.pcs[t].Loaded? && pc.Promoted?) || (s.pcs[t].Promoted? && pc.Copied?)
    ensures Inv(Goto(TakeStrong(s, t), t, pc).(phase := Live))
  {
    var s' := Goto(TakeStrong(s, t), t, pc).(phase := Live);
    forall u | 0 <= u < |s.pcs| ensures GoodThread(s', u) { assert GoodThread(s, u) && GoodThread(s, t); }
  }

  lemma DropStrongKeeps(s: State, t: int)
    requires Inv(s) && 0 <= t < |s.pcs| && t in s.strong && (s.pcs[t].Idle? || s.pcs[t].Copied?)
    ensures Inv(DropStrong(s, t))
  {
    NonEmpty(s.strong, t);
    var s' := DropStrong(s, t);
    assert s.phase == Live;
    forall u | 0 <= u < |s.pcs| ensures GoodThread(s', u) {
      assert GoodThread(s, u) && GoodThread(s, t);
      if u != t && u in s.strong { NonEmpty(s'.strong, u); }
    }
  }

  lemma TakeWeakKeeps(s: State, t: int)
    requires Inv(s) && 0 <= t < |s.pcs| && s.weakCount > 0
    ensures Inv(TakeWeak(s, t))
  {
    var s' := TakeWeak(s, t);
    forall u | 0 <= u < |s.pcs| ensures GoodThread(s', u) { assert GoodThread(s, u); }
  }

  lemma WeakReleaseKeeps(s: State, t: int)
    requires Inv(s) && 0 <= t < |s.pcs| && t in s.weak && s.pcs[t].Idle?
    ensures Inv(DropBlock(s.(weak := s.weak - multiset{t}), t))
  {
    NonEmpty(s.weak, t);
    var s' := DropBlock(s.(weak := s.weak - multiset{t}), t);
    assert GoodThread(s, t);
    forall u | 0 <= u < |s.pcs| ensures GoodThread(s', u) { assert GoodThread(s, u); }
  }

  lemma ReleaseBlockKeeps(s: State, t: int)
    requires Inv(s) && 0 <= t < |s.pcs| && s.pcs[t].Notified?
    ensures Inv(DropBlock(s, t).(phase := Gone))
  {
    assert GoodThread(s, t);
    var s' := DropBlock(s, t).(phase := Gone);
    forall u | 0 <= u < |s.pcs| ensures GoodThread(s', u) { assert GoodThread(s, u); }
  }

  lemma DestructorKeeps(s: State, e: Event)
    requires Inv(s) && Enabled(s, e) && (e.Delete? || e.Notify? || e.Free?)
    ensures Inv(Step(s, e))
  {
    assert GoodThread(s, e.t);
    var s' := Step(s, e);
    forall u | 0 <= u < |s.pcs| ensures GoodThread(s', u) { assert GoodThread(s, u); }
  }

  lemma StrongGiveKeeps(s: State, t: int, u: int)
    requires Inv(s) && Enabled(s, Give(t, u))
    ensures Inv(Step(s, Give(t, u)))
  {
    NonEmpty(s.strong, t);
    var s' := Step(s, Give(t, u));
    assert s'.strong[t] >= s.strong[t] - 1;
    forall v | 0 <= v < |s.pcs| ensures GoodThread(s', v) { assert GoodThread(s, v); }
  }

  lemma WeakGiveKeeps(s: State, t: int, u: int)
    requires Inv(s) && Enabled(s, WeakGive(t, u))
    ensures Inv(Step(s, WeakGive(t, u)))
  {
    NonEmpty(s.weak, t);
    var s' := Step(s, WeakGive(t, u));
    forall v | 0 <= v < |s.pcs| ensures GoodThread(s', v) { assert GoodThread(s, v); }
  }

  lemma ReadKeeps(s: State, e: Event)
    requires Inv(s) && Enabled(s, e) && (e.Load? || (e.CompareAndSwap? && s.strongCount != s.pcs[e.t].oldVal))
    ensures Inv(Step(s, e))
  {
    assert GoodThread(s, e.t);
    var s' := Step(s, e);
    forall u | 0 <= u < |s.pcs| ensures GoodThread(s', u) { assert GoodThread(s, u); }
  }

  /** Holding a pointer of either kind keeps the block; holding a strong one keeps the object. */
  lemma HoldingKeeps(s: State, t: int)
    requires Inv(s) && 0 <= t < |s.pcs|
    ensures t in s.strong ==> s.phase == Live
    ensures t in s.weak || s.phase != Gone ==> s.weakCount > 0
  {
    if t in s.strong { NonEmpty(s.strong, t); }
    if t in s.weak { NonEmpty(s.weak, t); }
  }

  predicate OnStrongCount(e: Event) {
    e.FirstAddRef? || e.AddRef? || e.CopyResult? || e.CompareAndSwap? || e.Release? || e.ReleaseExtra?
  }

  predicate OnBlockCount(e: Event) {
    e.WeakFromRaw? || e.WeakCreate? || e.WeakCopy? || e.WeakRelease? || e.ReleaseBlock?
  }

  lemma StrongStepKeeps(s: State, e: Event)
    requires Inv(s) && Enabled(s, e) && OnStrongCount(e)
    ensures Inv(Step(s, e))
  {
    var t := e.t;
    HoldingKeeps(s, t);
    assert GoodThread(s, t);
    assert s.pcs[t := s.pcs[t]] == s.pcs;
    if e.Release? || e.ReleaseExtra? {
      DropStrongKeeps(s, t);
    } else if e.CompareAndSwap? && s.strongCount != s.pcs[t].oldVal {
      ReadKeeps(s, e);
    } else {
      TakeStrongKeeps(s, t, if e.CopyResult? then Copied else if e.CompareAndSwap? then Promoted else s.pcs[t]);
    }
  }

  lemma BlockStepKeeps(s: State, e: Event)
    requires Inv(s) && Enabled(s, e) && OnBlockCount(e)
    ensures Inv(Step(s, e))
  {
    HoldingKeeps(s, e.t);
    if e.WeakRelease? { WeakReleaseKeeps(s, e.t); }
    else if e.ReleaseBlock? { ReleaseBlockKeeps(s, e.t); }
    else { TakeWeakKeeps(s, e.t); }
  }

  /** Every atomic operation of every thread keeps the invariant. */
  lemma StepKeeps(s: State, e: Event)
    requires Inv(s)
    ensures Inv(Step(s, e))
  {
    if Enabled(s, e) {
      if OnStrongCount(e) { StrongStepKeeps(s, e); }
      else if OnBlockCount(e) { BlockStepKeeps(s, e); }
      else if e.Give? { StrongGiveKeeps(s, e.t, e.u); }
      else if e.WeakGive? { WeakGiveKeeps(s, e.t, e.u); }
      else if e.Load? { ReadKeeps(s, e); }
      else { DestructorKeeps(s, e); }
    }
  }

  lemma StepKeepsThreads(s: State, e: Event)
    ensures |Step(s, e).pcs| == |s.pcs|
  {
  }

  lemma {:induction false} RunKeeps(s: State, es: seq<Event>)
    requires Inv(s)
    ensures Inv(Run(s, es)) && |Run(s, es).pcs| == |s.pcs|
  {
    if es == [] {
    } else {
      RunKeeps(s, es[..|es|-1]);
      StepKeeps(Run(s, es[..|es|-1]), es[|es|-1]);
      StepKeepsThreads(Run(s, es[..|es|-1]), es[|es|-1]);
    }
  }

  lemma {:induction false} Reachable(n: nat, es: seq<Event>)
    ensures Inv(Run(Initial(n), es)) && |Run(Initial(n), es).pcs| == n
  {
    RunKeeps(Initial(n), es);
  }

  // ----- the theorems -----

  /** The object is alive: constructed, and its deletion has not begun. */
  predicate ObjectAlive(s: State) { s.deletes == 0 }

  /**
   In every interleaving, the strong count is the number of outstanding strong
   pointers, while there is one the object is alive, and it is deleted at most once.
   */
  lemma StrongCountIsExact(n: nat, es: seq<Event>)
    ensures var s := Run(Initial(n), es);
            && s.strongCount == |s.strong|
            && (s.strong != multiset{} ==> ObjectAlive(s) && !s.destroyedFlag)
            && s.deletes <= 1
  {
    Reachable(n, es);
  }

  /** The strong count has dropped to zero once. */
  predicate Over(s: State) { s.phase != Fresh && s.phase != Live }

  lemma OverMeans(s: State)
    requires Inv(s) && Over(s)
    ensures s.strongCount == 0 && s.strong == multiset{} && s.deletes <= 1 && s.frees <= 1
    ensures forall t :: 0 <= t < |s.pcs| ==> !s.pcs[t].Promoted? && !s.pcs[t].Copied?
  {
    forall t | 0 <= t < |s.pcs| ensures !s.pcs[t].Promoted? && !s.pcs[t].Copied? {
      assert GoodThread(s, t);
    }
  }

  lemma OverStays(s: State, e: Event)
    requires Inv(s) && Over(s)
    ensures Over(Step(s, e)) && s.deletes <= Step(s, e).deletes && s.frees <= Step(s, e).frees
  {
    OverMeans(s);
    if Enabled(s, e) { assert GoodThread(s, e.t); }
  }

  /** A release that reached zero is final: over any continuation the count stays zero, so no promotion succeeds. */
  lemma {:induction false} ZeroIsFinal(s: State, es: seq<Event>)
    requires Inv(s) && s.phase != Fresh && s.phase != Live
    ensures var s' := Run(s, es);
            && s'.strongCount == 0 && s'.strong == multiset{} && s'.phase != Fresh && s'.phase != Live
            && s.deletes <= s'.deletes <= 1 && s.frees <= s'.frees <= 1
            && (forall t :: 0 <= t < |s'.pcs| ==> !s'.pcs[t].Promoted? && !s'.pcs[t].Copied?)
  {
    if es == [] {
    } else {
      ZeroIsFinal(s, es[..|es|-1]);
      RunKeeps(s, es[..|es|-1]);
      OverStays(Run(s, es[..|es|-1]), es[|es|-1]);
    }
    RunKeeps(s, es);
    OverMeans(Run(s, es));
  }

  /** A compare-and-swap that would succeed finds a live object, and so does all that follows in promote(). */
  lemma PromotionIsSafe(n: nat, es: seq<Event>, t: int)
    requires 0 <= t < n
    ensures var s := Run(Initial(n), es);
            && |s.pcs| == n
            && (s.pcs[t].Loaded? && s.strongCount == s.pcs[t].oldVal ==>
                  ObjectAlive(s) && Step(s, CompareAndSwap(t)).strongCount == s.strongCount + 1)
            && (s.pcs[t].Promoted? || s.pcs[t].Copied? ==> ObjectAlive(s) && s.phase == Live)
            && (s.pcs[t].Copied? ==>
                  var s' := Step(s, ReleaseExtra(t));
                  s'.pcs[t].Idle? && s'.strong[t] + 1 == s.strong[t] && t in s'.strong && ObjectAlive(s'))
  {
    Reachable(n, es);
    var s := Run(Initial(n), es);
    PromotingIsAlive(s, t);
    if s.pcs[t].Copied? { ExtraIsReturned(s, t); }
  }

  lemma PromotingIsAlive(s: State, t: int)
    requires Inv(s) && 0 <= t < |s.pcs|
    ensures s.pcs[t].Loaded? && s.strongCount == s.pcs[t].oldVal ==>
              ObjectAlive(s) && Step(s, CompareAndSwap(t)).strongCount == s.strongCount + 1
    ensures s.pcs[t].Promoted? || s.pcs[t].Copied? ==> ObjectAlive(s) && s.phase == Live
  {
    assert GoodThread(s, t);
    HoldingKeeps(s, t);
  }

  lemma ExtraIsReturned(s: State, t: int)
    requires Inv(s) && 0 <= t < |s.pcs| && s.pcs[t].Copied?
    ensures var s' := Step(s, ReleaseExtra(t));
            s'.pcs[t].Idle? && s'.strong[t] + 1 == s.strong[t] && t in s'.strong && ObjectAlive(s')
  {
    assert GoodThread(s, t);
    HoldingKeeps(s, t);
    NonEmpty(s.strong, t);
  }

  /** Does this event hand thread t a strong pointer of another thread? */
  predicate IsGift(s: State, e: Event, t: int) {
    Enabled(s, e) && e.Give? && e.u == t && e.t != t
  }

  lemma OthersKeepStrong(s: State, e: Event, t: int)
    requires e.t != t
    ensures Step(s, e).strong[t] == s.strong[t] + One(IsGift(s, e, t))
  {
    if e.Release? || e.ReleaseExtra? {
      assert (s.strong - multiset{e.t})[t] == s.strong[t];
    } else if e.Give? {
      assert (s.strong - multiset{e.t})[t] == s.strong[t];
    }
  }

  lemma OthersKeepWeak(s: State, e: Event, t: int)
    requires e.t != t
    ensures Step(s, e).weak[t] >= s.weak[t]
  {
    if e.WeakRelease? || e.WeakGive? {
      assert (s.weak - multiset{e.t})[t] == s.weak[t];
    }
  }

  lemma OthersKeepPlace(s: State, e: Event, t: int)
    requires e.t != t && 0 <= t < |s.pcs|
    ensures |Step(s, e).pcs| == |s.pcs| && Step(s, e).pcs[t] == s.pcs[t]
  {
  }

  /** What the other threads do never takes a pointer away from a thread, nor moves it. */
  lemma OthersKeepOwn(s: State, e: Event, t: int)
    requires e.t != t
    ensures Step(s, e).strong[t] == s.strong[t] + One(IsGift(s, e, t)) && Step(s, e).weak[t] >= s.weak[t]
    ensures 0 <= t < |s.pcs| ==> |Step(s, e).pcs| == |s.pcs| && Step(s, e).pcs[t] == s.pcs[t]
  {
    OthersKeepStrong(s, e, t);
    OthersKeepWeak(s, e, t);
    if 0 <= t < |s.pcs| { OthersKeepPlace(s, e, t); }
  }

  /** How many strong pointers other threads hand to thread t along the way. */
  function Gifts(s: State, es: seq<Event>, t: int): nat {
    if es == [] then 0
    else Gifts(s, es[..|es|-1], t) + One(IsGift(Run(s, es[..|es|-1]), es[|es|-1], t))
  }

  /** Of thread t's own operations, only those of promote() after its compare-and-swap. */
  predicate Promoting(es: seq<Event>, t: int) {
    forall k :: 0 <= k < |es| && es[k].t == t ==> es[k].CopyResult? || es[k].ReleaseExtra?
  }

  /** A thread that has promoted: it holds one pointer more than `had`, and two while the extra one is not returned. */
  ghost predicate HasPromoted(s: State, t: int, had: nat) {
    && 0 <= t < |s.pcs| && ObjectAlive(s)
    && (s.pcs[t].Promoted? || s.pcs[t].Copied? || s.pcs[t].Idle?)
    && s.strong[t] == had + if s.pcs[t].Copied? then 2 else 1
  }

  lemma OwnStepKeepsPromoted(s: State, e: Event, had: nat)
    requires Inv(s) && HasPromoted(s, e.t, had) && (e.CopyResult? || e.ReleaseExtra?)
    ensures HasPromoted(Step(s, e), e.t, had)
  {
    if Enabled(s, e) {
      if e.ReleaseExtra? { ExtraIsReturned(s, e.t); }
    }
  }

  lemma OtherStepKeepsPromoted(s: State, e: Event, t: int, had: nat)
    requires Inv(s) && HasPromoted(s, t, had) && e.t != t
    ensures HasPromoted(Step(s, e), t, had + One(IsGift(s, e, t)))
  {
    OthersKeepOwn(s, e, t);
    StepKeeps(s, e);
    HoldingKeeps(Step(s, e), t);
  }

  lemma {:induction false} PromotedRuns(s: State, es: seq<Event>, t: int, had: nat)
    requires Inv(s) && HasPromoted(s, t, had) && Promoting(es, t)
    ensures HasPromoted(Run(s, es), t, had + Gifts(s, es, t))
  {
    if es == [] {
    } else {
      var r, e := es[..|es|-1], es[|es|-1];
      PromotedRuns(s, r, t, had);
      RunKeeps(s, r);
      if e.t == t {
        OwnStepKeepsPromoted(Run(s, r), e, had + Gifts(s, r, t));
      } else {
        OtherStepKeepsPromoted(Run(s, r), e, t, had + Gifts(s, r, t));
      }
    }
  }

  lemma SwapPromotes(s: State, t: int)
    requires Inv(s) && 0 <= t < |s.pcs| && s.pcs[t].Loaded? && s.strongCount == s.pcs[t].oldVal
    ensures HasPromoted(Step(s, CompareAndSwap(t)), t, s.strong[t])
  {
    assert GoodThread(s, t);
  }

  /**
   A successful promotion, whatever the other threads do in between: from the
   compare-and-swap on the object is alive, and once promote() has returned the
   thread holds exactly one strong pointer more than before, not counting those
   that other threads have handed to it meanwhile.
   */
  lemma PromotionAddsOne(n: nat, before: seq<Event>, t: int, after: seq<Event>)
    requires 0 <= t < |Run(Initial(n), before).pcs| && Promoting(after, t)
    requires Run(Initial(n), before).pcs[t].Loaded?
    requires Run(Initial(n), before).strongCount == Run(Initial(n), before).pcs[t].oldVal
    ensures var s := Run(Initial(n), before);
            var s1 := Step(s, CompareAndSwap(t));
            var s' := Run(s1, after);
            && |s'.pcs| == |s.pcs| == n && s'.deletes == 0
            && (s'.pcs[t].Promoted? || s'.pcs[t].Copied? || s'.pcs[t].Idle?)
            && s'.strong[t] == s.strong[t] + Gifts(s1, after, t) + if s'.pcs[t].Copied? then 2 else 1
  {
    Reachable(n, before);
    var s := Run(Initial(n), before);
    StepKeeps(s, CompareAndSwap(t));
    SwapPromotes(s, t);
    PromotedRuns(Step(s, CompareAndSwap(t)), after, t, s.strong[t]);
    RunKeeps(Step(s, CompareAndSwap(t)), after);
  }

  /** Undisturbed, Promote succeeds at its first compare-and-swap whenever the object is held, and else fails. */
  lemma PromoteAlone(s: State, t: int)
    requires Inv(s) && 0 <= t < |s.pcs| && s.pcs[t].Idle? && t in s.weak
    ensures s.strongCount > 0 ==> Step(Step(s, Load(t)), CompareAndSwap(t)).pcs[t].Promoted?
    ensures s.strongCount == 0 ==> Step(s, Load(t)) == s
  {
  }

  /**
   In every interleaving, the block counts the weak handles plus the object, is
   freed at most once and only after both are gone, and a destroyed object is
   invalid to every surviving handle.
   */
  lemma BlockLifetime(n: nat, es: seq<Event>)
    ensures var s := Run(Initial(n), es);
            && s.weakCount == |s.weak| + (if s.phase == Gone then 0 else 1)
            && s.frees <= 1
            && (s.frees == 1 ==> s.deletes == 1 && s.destroyedFlag && s.weak == multiset{})
            && (s.phase == Gone ==> s.destroyedFlag && s.deletes == 1)
            && (s.destroyedFlag ==> s.deletes == 1 && s.strongCount == 0)
  {
    Reachable(n, es);
  }

  lemma BlockInUse(s: State, t: int)
    requires Inv(s) && 0 <= t < |s.pcs|
    requires t in s.weak || t in s.strong || s.phase != Gone || t in s.freers
    ensures s.frees == 0
  {
    HoldingKeeps(s, t);
    if t in s.freers { assert |s.freers - {t}| == |s.freers| - 1; }
  }

  lemma StepsUseBlock(s: State, e: Event)
    requires Inv(s) && Enabled(s, e)
    ensures e.t in s.weak || e.t in s.strong || s.phase != Gone || e.t in s.freers
  {
    assert GoodThread(s, e.t);
  }

  /** Whatever a thread is about to do, the block it does it on has not been freed. */
  lemma {:induction false} NoUseAfterFree(n: nat, es: seq<Event>, e: Event)
    requires Enabled(Run(Initial(n), es), e)
    ensures Run(Initial(n), es).frees == 0
  {
    Reachable(n, es);
    StepsUseBlock(Run(Initial(n), es), e);
    BlockInUse(Run(Initial(n), es), e.t);
  }

  /** Whatever uses the object, up to its deletion, finds it alive. */
  lemma {:induction false} NoUseAfterDelete(n: nat, es: seq<Event>, e: Event)
    requires Enabled(Run(Initial(n), es), e)
    requires e.AddRef? || e.Give? || e.Release? || e.WeakCreate? || e.CopyResult? || e.ReleaseExtra? || e.Delete?
    ensures ObjectAlive(Run(Initial(n), es))
  {
    Reachable(n, es);
    var s := Run(Initial(n), es);
    assert GoodThread(s, e.t);
    HoldingKeeps(s, e.t);
  }

  /** Once every pointer has been dropped and every thread is idle, object and block are gone, each exactly once. */
  lemma NothingLeaks(n: nat, es: seq<Event>)
    requires var s := Run(Initial(n), es);
             && s.phase != Fresh && s.strong == multiset{} && s.weak == multiset{}
             && forall t :: 0 <= t < |s.pcs| ==> s.pcs[t].Idle?
    ensures Run(Initial(n), es).deletes == 1 && Run(Initial(n), es).frees == 1
  {
    Reachable(n, es);
    var s := Run(Initial(n), es);
    BusyThreads(s);
    assert s.freers == {} by {
      assert forall t :: t !in s.freers;
    }
  }

  /** Whoever still has a destruction or a deallocation to carry out is not idle. */
  lemma BusyThreads(s: State)
    requires Inv(s)
    ensures s.phase.Dropped? || s.phase.InDestructor? || s.phase.AfterNotify? ==> !s.pcs[s.phase.agent].Idle?
    ensures forall t :: t in s.freers ==> 0 <= t < |s.pcs| && !s.pcs[t].Idle?
  {
    if s.phase.Dropped? || s.phase.InDestructor? || s.phase.AfterNotify? {
      assert GoodThread(s, s.phase.agent);
    }
    forall t | t in s.freers ensures !s.pcs[t].Idle? {
      assert GoodThread(s, t);
    }
  }
}
