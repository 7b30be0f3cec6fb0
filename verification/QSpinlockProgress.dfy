/** Nobody is stuck in tests/locking/qspinlock.c: who a thread waits for, and that locking, handing over
    and unlocking come to an end, with what they should, when no other thread interferes. */
module QSpinlockProgress {

  import opened QSpinlock

  // ---------------------------------------------------------------------------
  // Who an owner at the head of the queue waits for
  // ---------------------------------------------------------------------------

  /** Bound to queue for its lock, or out of nodes. */
  predicate OnWay(pc: Pc) { pc == Pending(ClearPending) || pc == Trying(IncCount) || pc.Slot? }

  /** Waits for the link from a successor, or is about to, although the tail says that there is none. */
  predicate Expects(s: State, t: nat)
    requires t < |s.thread|
  {
    var me := s.thread[t];
    && (me.pc == Head(SetLocked) || me.pc == Owner(AwaitNext)) && me.lk < |s.word|
    && s.word[me.lk].tail == me.node
  }

  ghost predicate FollowedBy(s: State, t: nat, u: nat)
    requires t < |s.thread|
  {
    u < |s.thread| && OnWay(s.thread[u].pc) && s.thread[u].lk == s.thread[t].lk
  }

  /** A comment in the code promises that an owner that finds a pending bit instead of a successor will
      get one: who set the bit has seen the tail and is on its way into the queue. */
  ghost predicate Followed(s: State, t: nat) {
    t < |s.thread| && Expects(s, t) ==> exists u: nat :: FollowedBy(s, t, u)
  }

  ghost predicate AllFollowed(s: State) { forall t: nat :: Followed(s, t) }

  /** A tail is overwritten by none, or by the node of the thread that swaps it. */
  lemma TailWrites(s: State, x: nat, choice: Choice, l: nat)
    requires WellFormed(s) && x < |s.thread| && l < |s.word|
    ensures var s', me := Step(s, x, choice), s.thread[x];
            s'.word[l].tail in {s.word[l].tail, None} ||
            (me.pc == Slot(SwapTail) && me.lk == l && s'.word[l].tail == me.node)
  {
    assert ThreadOk(s, x);
  }

  /** Who is on its way stays so, or changes the tail. */
  lemma OnWayStays(s: State, u: nat, choice: Choice)
    requires WellFormed(s) && u < |s.thread| && OnWay(s.thread[u].pc)
    ensures var s', l := Step(s, u, choice), s.thread[u].lk;
            && l < |s.word| && s'.thread[u].lk == l
            && (OnWay(s'.thread[u].pc) || s.word[l].tail == None || s'.word[l].tail == s.thread[u].node)
    ensures UsesNode(s.thread[u].pc) || OnWay(Step(s, u, choice).thread[u].pc) || s.word[s.thread[u].lk].tail == None
  {
    assert ThreadOk(s, u);
  }

  lemma OnlyOneSteps(s: State, x: nat, choice: Choice, t: nat)
    requires WellFormed(s) && x < |s.thread| && t < |s.thread| && t != x
    ensures Step(s, x, choice).thread[t] == s.thread[t]
  {
    assert ThreadOk(s, x);
  }

  /** A thread comes to expect a link only when it finds a pending bit, which is about to be undone. */
  lemma ExpectsAtLast(s: State, k: Claim, t: nat, choice: Choice)
    requires WellFormed(s) && Claims(s, k) && t < |s.thread| && Expects(Step(s, t, choice), t) && !Expects(s, t)
    ensures s.thread[t].pc == Head(CasTail) && exists u: nat :: FollowedBy(s, t, u) && u != t
  {
    ClaimContext(s, k, t);
    var l := s.thread[t].lk;
    var u := k.pender[l];
    assert FollowedBy(s, t, u);
  }

  lemma FollowedKept(s: State, stack: seq<seq<nat>>, q: Queue, k: Claim, x: nat, choice: Choice, t: nat)
    requires Inv(s, stack, q, k) && x < |s.thread| && Followed(s, t)
    ensures Followed(Step(s, x, choice), t)
  {
    hide Slots, Queues, Claims, Step, WellFormed;
    var s' := Step(s, x, choice);
    if t < |s.thread| && Expects(s', t) {
      if x == t && !Expects(s, t) {
        ExpectsAtLast(s, k, t, choice);
        var u: nat :| FollowedBy(s, t, u) && u != t;
        OnlyOneSteps(s, t, choice, u);
        SameLock(s, t, choice);
        assert FollowedBy(s', t, u);
      } else {
        if x != t {
          OnlyOneSteps(s, x, choice, t);
          TailIsOwn(s, stack, x, choice, t);
        }
        ExpectsIs(s, t);
        var u: nat :| FollowedBy(s, t, u);
        if u == x {
          OnWayStays(s, u, choice);
          if UsesNode(s.thread[u].pc) { NodesDiffer(s, stack, u, t); }
        } else {
          OnlyOneSteps(s, x, choice, u);
        }
        if x == t { SameLock(s, t, choice); }
        assert FollowedBy(s', t, u);
      }
    }
  }

  lemma ExpectsIs(s: State, t: nat)
    requires WellFormed(s) && t < |s.thread| && Expects(s, t)
    ensures s.word[s.thread[t].lk].tail == s.thread[t].node != None && UsesNode(s.thread[t].pc)
    ensures !OnWay(s.thread[t].pc)
  {
    assert ThreadOk(s, t);
  }

  lemma SameLock(s: State, t: nat, choice: Choice)
    requires WellFormed(s) && t < |s.thread| && Expects(Step(s, t, choice), t)
    ensures Step(s, t, choice).thread[t].lk == s.thread[t].lk
  {
    assert ThreadOk(s, t);
  }

  /** No other thread writes a thread's node into a tail. */
  lemma TailIsOwn(s: State, stack: seq<seq<nat>>, x: nat, choice: Choice, t: nat)
    requires WellFormed(s) && Slots(s, stack) && x < |s.thread| && t < |s.thread| && x != t
    requires Step(s, x, choice).thread[t] == s.thread[t] && Expects(Step(s, x, choice), t)
    ensures Expects(s, t)
  {
    hide Step, Slots;
    assert ThreadOk(s, t);
    TailWrites(s, x, choice, s.thread[t].lk);
    if s.thread[x].pc == Slot(SwapTail) {
      NodesDiffer(s, stack, x, t);
    }
  }

  lemma StepKeepsFollowed(s: State, stack: seq<seq<nat>>, q: Queue, k: Claim, x: nat, choice: Choice)
    requires Inv(s, stack, q, k) && x < |s.thread| && AllFollowed(s)
    ensures AllFollowed(Step(s, x, choice))
  {
    hide Followed, Slots, Queues, Claims, Step;
    forall t: nat ensures Followed(Step(s, x, choice), t) {
      FollowedKept(s, stack, q, k, x, choice, t);
    }
  }

  lemma {:induction false} RunKeepsFollowed(run: seq<State>, i: nat)
    returns (stack: seq<seq<nat>>, q: Queue, k: Claim)
    requires Run(run) && i < |run|
    ensures Inv(run[i], stack, q, k) && AllFollowed(run[i])
  {
    if i == 0 {
      stack, q, k := RunKeepsInv(run, 0);
    } else {
      hide Inv, AllFollowed, Step, MayRun, Init;
      stack, q, k := RunKeepsFollowed(run, i - 1);
      assert Next(run[i - 1], run[i - 1 + 1]);
      var t: nat, choice :| t < |run[i - 1].thread| && MayRun(run[i - 1], t) && run[i] == Step(run[i - 1], t, choice);
      StepKeepsFollowed(run[i - 1], stack, q, k, t, choice);
      stack, q, k := StepKeepsInv(run[i - 1], stack, q, k, t, choice);
    }
  }

  /** Nobody spins for a reason that is not there: a thread that cannot move waits for the holder of its
      lock, for the one with the pending bit, for its predecessor, or for a successor that is in the
      queue or bound to enter it, if it has a node. */
  lemma StuckOnlyBehind(s: State, stack: seq<seq<nat>>, q: Queue, k: Claim, t: nat)
    requires Inv(s, stack, q, k) && AllFollowed(s) && t < |s.thread| && !s.thread[t].pc.Idle?
    requires Step(s, t, Proceed) == s
    ensures var me, l := s.thread[t], s.thread[t].lk;
            && l < |s.word|
            && match me.pc
               case Trying(p) => p.SpinOnPending? && k.pender[l] != None
               case Pending(p) => p.AwaitUnlocked? && k.holder[l] != None
               case Slot(p) => p.NoNodeRead? && (k.holder[l] != None || k.pender[l] != None || q.last[l] != None)
               case Waiting(p) => p.AwaitHead? && q.pred[t] != None && Neighbours(s, q, q.pred[t], t)
               case Head(p) => p.AwaitClear? && (k.holder[l] != None || k.pender[l] != None)
               case Owner(p) => p.AwaitNext? && 0 <= me.node < |s.node| && s.node[me.node].next == None
                                && (q.succ[t] != None || exists u: nat :: FollowedBy(s, t, u))
               case _ => false
  {
    QueueContext(s, q, t);
    ClaimContext(s, k, t);
    assert Followed(s, t);
  }

  /** The promise of that comment is not kept for a thread without a node: it spins for the word to become
      zero, which it does not while the owner waits for the link, and neither of them can move. */
  lemma NoNodeNoLink(s: State, stack: seq<seq<nat>>, q: Queue, k: Claim, t: nat, u: nat, choice: Choice)
    requires Inv(s, stack, q, k) && t < |s.thread| && u < |s.thread|
    requires s.thread[t].pc == Owner(AwaitNext) && Expects(s, t)
    requires s.thread[u].pc == Slot(NoNodeRead) && s.thread[u].lk == s.thread[t].lk
    ensures Step(s, t, choice) == s && Step(s, u, choice) == s
  {
    QueueContext(s, q, t);
    assert ThreadOk(s, u) && ThreadOk(s, t);
    LastExpects(s, stack, q, t);
  }

  /** The tail names the thread that is last. */
  lemma LastExpects(s: State, stack: seq<seq<nat>>, q: Queue, t: nat)
    requires Slots(s, stack) && Queues(s, q) && t < |s.thread| && Expects(s, t)
    ensures q.last[s.thread[t].lk] == t
  {
    QueueContext(s, q, t);
    var y := q.last[s.thread[t].lk];
    if y != t {
      NodesDiffer(s, stack, y, t);
    }
  }

  // ---------------------------------------------------------------------------
  // Undisturbed
  // ---------------------------------------------------------------------------

  /** `n` steps of thread `t` alone, as long as pointers are pointers. */
  ghost function Alone(s: State, t: nat, choice: Choice, n: nat): (s': State)
    requires t < |s.thread|
    ensures SameSystem(s, s')
    decreases n
  {
    if n == 0 || !WellFormed(s) then s else Alone(Step(s, t, choice), t, choice, n - 1)
  }

  /** In queued_spin_lock without having got the lock. */
  predicate Locking(pc: Pc) { !pc.Idle? && pc != DecCount && !pc.Owner? }

  /** Nobody holds the lock; its pending bit is clear or the thread's own; and the queue is empty, or the
      thread is at its head. */
  predicate Open(s: State, t: nat)
    requires t < |s.thread|
  {
    var me := s.thread[t];
    && me.lk < |s.word|
    && var w := s.word[me.lk];
       && !w.locked && (w.pending <==> me.pc.Pending?)
       && (!Queued(me.pc) ==> w.tail == None)
       && (me.pc.Waiting? ==> 0 <= me.node < |s.node| && s.node[me.node].locked)
  }

  function LockLeft(pc: Pc): nat {
    match pc
    case Trying(p) =>
      (match p case FastCas => 1 case SpinOnPending => 7 case TestVal => 6 case FetchPending => 2 case IncCount => 5)
    case Pending(p) => (match p case ClearPending => 6 case AwaitUnlocked => 2 case TakePending => 1)
    case Slot(p) =>
      (match p case NoNodeRead => 2 case NoNodeCas => 1 case InitLocked => 4 case InitNext => 3 case TryRead => 2
               case TryCas => 1 case SwapTail => 4)
    case Waiting(_) => 5
    case Head(p) => (match p case ReadNext => 4 case AwaitClear => 3 case CasTail => 2 case SetLocked => 1)
    case _ => 0
  }

  predicate Acquired(s: State, t: nat)
    requires t < |s.thread|
  {
    !Locking(s.thread[t].pc) && s.thread[t].lk in s.thread[t].holds
  }

  lemma TryAdvances(s: State, q: Queue, t: nat, choice: Choice)
    requires WellFormed(s) && Queues(s, q) && t < |s.thread| && Open(s, t)
    requires s.thread[t].pc.Trying? || s.thread[t].pc.Pending?
    ensures var s' := Step(s, t, choice);
            || Acquired(s', t)
            || (Locking(s'.thread[t].pc) && Open(s', t) && LockLeft(s'.thread[t].pc) < LockLeft(s.thread[t].pc))
  {
    hide Queues, QueueStep, SlotStep;
    assert ThreadOk(s, t);
  }

  lemma QueueAdvances(s: State, q: Queue, t: nat, choice: Choice)
    requires WellFormed(s) && Queues(s, q) && t < |s.thread| && Open(s, t)
    requires s.thread[t].pc.Slot? || s.thread[t].pc.Waiting? || s.thread[t].pc.Head?
    ensures var s' := Step(s, t, choice);
            || Acquired(s', t)
            || (Locking(s'.thread[t].pc) && Open(s', t) && LockLeft(s'.thread[t].pc) < LockLeft(s.thread[t].pc))
  {
    hide TryStep, PendStep;
    QueueContext(s, q, t);
  }

  /** Wherever a thread stands, on a lock that nobody has or is in line for before it, it gets the lock
      after at most seven steps: by the fast path, with the pending bit, or from the queue. */
  lemma {:induction false} LockAlone(s: State, stack: seq<seq<nat>>, q: Queue, k: Claim, t: nat, choice: Choice)
    returns (n: nat)
    requires Inv(s, stack, q, k) && t < |s.thread| && MayRun(s, t) && Locking(s.thread[t].pc) && Open(s, t)
    ensures n <= LockLeft(s.thread[t].pc) <= 7 && Acquired(Alone(s, t, choice, n), t)
    decreases LockLeft(s.thread[t].pc)
  {
    hide Slots, Queues, Claims, Step, Open, WellFormed, Acquired;
    if s.thread[t].pc.Trying? || s.thread[t].pc.Pending? {
      TryAdvances(s, q, t, choice);
    } else {
      QueueAdvances(s, q, t, choice);
    }
    var s1 := Step(s, t, choice);
    assert Alone(s1, t, choice, 0) == s1;
    if Acquired(s1, t) {
      n := 1;
      assert Alone(s, t, choice, 1) == Alone(s1, t, choice, 0);
    } else {
      var stack', q', k' := StepKeepsInv(s, stack, q, k, t, choice);
      StillRuns(s, t, choice);
      n := LockAlone(s1, stack', q', k', t, choice);
      n := n + 1;
    }
  }

  lemma StillRuns(s: State, t: nat, choice: Choice)
    requires WellFormed(s) && t < |s.thread| && MayRun(s, t)
    ensures MayRun(Step(s, t, choice), t)
  {
    assert ThreadOk(s, t);
  }

  /** queued_spin_lock on a free lock: one compare-and-exchange. */
  lemma LockIsFast(s: State, stack: seq<seq<nat>>, q: Queue, k: Claim, t: nat, l: nat)
    requires Inv(s, stack, q, k) && t < |s.thread| && MayRun(s, t) && s.thread[t].pc.Idle?
    requires l < |s.word| && s.word[l] == Zero
    ensures var s2 := Alone(s, t, Lock(l), 2);
            && s2.word == s.word[l := Zero.(locked := true)] && s2.node == s.node && s2.count == s.count
            && s2.thread[t].pc.Idle? && s2.thread[t].holds == s.thread[t].holds + {l}
  {
    hide Slots, Queues, Claims;
    var s1 := Step(s, t, Lock(l));
    var _, _, _ := StepKeepsInv(s, stack, q, k, t, Lock(l));
    assert Alone(s, t, Lock(l), 2) == Alone(s1, t, Lock(l), 1) == Alone(Step(s1, t, Lock(l)), t, Lock(l), 0);
  }

  /** A thread tries for the pending bit exactly when it has last seen neither a pending bit nor a queue; it
      waits first only for a pending bit that was alone in the word, and as long as it sees that. */
  lemma TryDecides(s: State, t: nat, choice: Choice)
    requires WellFormed(s) && t < |s.thread| && s.thread[t].pc.Trying? && s.thread[t].lk < |s.word|
    ensures var me, w, pc' := s.thread[t], s.word[s.thread[t].lk], Step(s, t, choice).thread[t].pc;
            && (me.pc.try.TestVal? ==>
                  (pc' == Trying(FetchPending) <==> !me.val.pending && me.val.tail == None)
                  && (pc' != Trying(FetchPending) ==> pc' == Trying(IncCount)))
            && (pc' == Trying(SpinOnPending) ==> w.pending && w.tail == None && !w.locked)
            && (me.pc.try.FastCas? && w != Zero && !w.pending ==> pc' == Trying(TestVal))
            && (me.pc.try.FastCas? && w == Zero.(pending := true) ==> pc' == Trying(SpinOnPending))
            && (me.pc.try.SpinOnPending? && w == Zero.(pending := true) && choice != GiveUp ==> pc' == me.pc)
            && (me.pc.try.IncCount? ==>
                  pc' == Slot(if me.cpu < |s.count| && s.count[me.cpu] < MaxNodes then InitLocked else NoNodeRead))
  {
    assert ThreadOk(s, t);
  }

  /** Who sets the pending bit when it was clear keeps it exactly when the queue is empty, and then has
      the lock next; who finds it set leaves the word alone. */
  lemma FetchDecides(s: State, k: Claim, t: nat, choice: Choice)
    requires WellFormed(s) && Claims(s, k) && t < |s.thread| && s.thread[t].pc == Trying(FetchPending)
    ensures var s', l := Step(s, t, choice), s.thread[t].lk;
            && l < |s.word| && s'.word == s.word[l := s.word[l].(pending := true)]
            && (k.pender[l] != None ==> s' == s.(thread := s'.thread) && s'.thread[t].pc == Trying(IncCount))
            && (k.pender[l] == None ==>
                  s'.thread[t].pc == Pending(if s.word[l].tail != None then ClearPending
                                             else if k.holder[l] != None then AwaitUnlocked else TakePending))
  {
    ClaimContext(s, k, t);
  }

  /** Who finds others queued links itself behind the last of them. */
  lemma JoinsQueue(s: State, stack: seq<seq<nat>>, q: Queue, k: Claim, t: nat, choice: Choice)
    requires Inv(s, stack, q, k) && t < |s.thread| && MayRun(s, t) && s.thread[t].pc == Slot(SwapTail)
    requires s.thread[t].lk < |s.word| && s.word[s.thread[t].lk].tail != None
    ensures var p, s2 := s.word[s.thread[t].lk].tail, Alone(s, t, choice, 2);
            && 0 <= p < |s.node| && s2.node == s.node[p := s.node[p].(next := s.thread[t].node)]
            && s2.thread[t].pc == Waiting(AwaitHead) && s2.word[s.thread[t].lk].tail == s.thread[t].node
  {
    hide Slots, Claims;
    QueueContext(s, q, t);
    var s1 := Step(s, t, choice);
    var _, q', _ := StepKeepsInv(s, stack, q, k, t, choice);
    QueueContext(s1, q', t);
    assert Alone(s, t, choice, 2) == Alone(s1, t, choice, 1) == Alone(Step(s1, t, choice), t, choice, 0);
  }

  /** A holder that has its successor's link hands the queue over and is done. */
  lemma HandOverAlone(s: State, stack: seq<seq<nat>>, q: Queue, k: Claim, t: nat, choice: Choice)
    requires Inv(s, stack, q, k) && t < |s.thread| && MayRun(s, t) && s.thread[t].pc == Owner(Handover)
    ensures var h, s2 := s.thread[t].next, Alone(s, t, choice, 2);
            && 0 <= h < |s.node| && s2.node == s.node[h := s.node[h].(locked := true)]
            && s2.thread[t].pc.Idle? && s2.thread[t].holds == s.thread[t].holds && s2.word == s.word
  {
    hide Slots, Claims, Queues;
    assert ThreadOk(s, t);
    var s1 := Step(s, t, choice);
    var _, _, _ := StepKeepsInv(s, stack, q, k, t, choice);
    assert Alone(s, t, choice, 2) == Alone(s1, t, choice, 1) == Alone(Step(s1, t, choice), t, choice, 0);
  }

  /** queued_spin_unlock frees the lock and changes nothing else. */
  lemma UnlockReleases(s: State, k: Claim, t: nat, l: nat)
    requires WellFormed(s) && Claims(s, k) && t < |s.thread| && s.thread[t].pc.Idle? && l in s.thread[t].holds
    ensures l < |s.word|
    ensures Step(s, t, Unlock(l)) == s.(word := s.word[l := s.word[l].(locked := false)],
                                        thread := s.thread[t := s.thread[t].(holds := s.thread[t].holds - {l})])
  {
    ClaimContext(s, k, t);
  }

  /** When all threads are done and hold nothing, all locks are free and all nodes given back. */
  lemma QuietIsZero(s: State, stack: seq<seq<nat>>, q: Queue, k: Claim)
    requires Inv(s, stack, q, k)
    requires forall t :: 0 <= t < |s.thread| ==> s.thread[t].pc.Idle? && s.thread[t].holds == {}
    ensures forall l :: 0 <= l < |s.word| ==> s.word[l] == Zero
    ensures forall c :: 0 <= c < |s.count| ==> s.count[c] == 0
  {
    forall l: nat | l < |s.word| ensures s.word[l] == Zero {
      assert WordOk(s, k, l) && TailOk(s, q, l);
    }
    forall c: nat | c < |s.count| ensures s.count[c] == 0 {
      SlotIsUsed(s, stack, c);
    }
  }

  lemma SlotIsUsed(s: State, stack: seq<seq<nat>>, c: nat)
    requires Slots(s, stack) && c < |s.count|
    ensures s.count[c] != 0 ==> exists t: nat :: t < |s.thread| && !s.thread[t].pc.Idle?
  {
    assert StackOk(s, stack, c);
    if s.count[c] != 0 {
      var t := stack[c][0];
      assert !s.thread[t].pc.Idle?;
    }
  }
}
