/** The priority-inheritance mutex of tests/locking/rtmutex.c as it runs: blocking, the walk along
    the chain of owners with boosting and deadlock detection, taking, waking and giving up. One
    operation at a time: nothing changes concurrently. */
module RtMutex {

  import opened PiState
  import opened PiRelease

  const EDEADLK := -35

  // ---------------------------------------------------------------------------
  // The chain of owners
  // ---------------------------------------------------------------------------

  /** The owner of the lock that `t` waits for. */
  function Next(p: Pi, t: int): int {
    if TaskIn(p, t) && t < |p.blockedOn| && LockIn(p, p.blockedOn[t]) then p.owner[p.blockedOn[t]] else None
  }

  /** The task `k` owners further on. */
  function Steps(p: Pi, t: int, k: nat): int {
    if k == 0 then t else Next(p, Steps(p, t, k - 1))
  }

  /** The chain from `o` ends after `k` owners. */
  ghost predicate EndsAt(p: Pi, o: int, k: nat) {
    Steps(p, o, k) != None && Next(p, Steps(p, o, k)) == None
  }

  /** No task waits for itself. */
  ghost predicate Acyclic(p: Pi) {
    forall t, k: nat :: TaskIn(p, t) && k > 0 ==> Steps(p, t, k) != t
  }

  ghost predicate LeadsTo(p: Pi, o: int, t: int) {
    exists k: nat :: Steps(p, o, k) == t
  }

  /** The `k`-th lock of the chain from `o` is the one the walk came from, or `top` owns it. */
  ghost predicate Hit(p: Pi, o: int, k: nat, origLock: int, top: int) {
    && k > 0 && TaskIn(p, Steps(p, o, k - 1)) && Steps(p, o, k - 1) < |p.blockedOn|
    && LockIn(p, p.blockedOn[Steps(p, o, k - 1)])
    && (p.blockedOn[Steps(p, o, k - 1)] == origLock || Steps(p, o, k) == top)
  }

  /** The chain is the same when owners and waits are. */
  lemma {:induction false} StepsFrame(p: Pi, p': Pi, o: int, k: nat)
    requires p'.owner == p.owner && p'.blockedOn == p.blockedOn && |p'.own| == |p.own|
    ensures Steps(p', o, k) == Steps(p, o, k)
  {
    if k > 0 {
      StepsFrame(p, p', o, k - 1);
    }
  }

  /** A chain that has ended stays ended. */
  lemma {:induction false} StepsAfterEnd(p: Pi, o: int, k: nat, j: nat)
    requires EndsAt(p, o, k) && j > k
    ensures Steps(p, o, j) == None
  {
    if j > k + 1 {
      StepsAfterEnd(p, o, k, j - 1);
    }
  }

  lemma {:induction false} StepsBeforeEnd(p: Pi, o: int, k: nat, j: nat)
    requires EndsAt(p, o, k) && j <= k
    ensures Steps(p, o, j) != None
    decreases k - j
  {
    if j < k {
      StepsBeforeEnd(p, o, k, j + 1);
    }
  }

  /** Blocking `t` does not change the chain before it comes to `t`. */
  lemma {:induction false} StepsUntil(p: Pi, p': Pi, t: Task, o: int, k: nat)
    requires p'.owner == p.owner && |p'.blockedOn| == |p.blockedOn| && |p'.own| == |p.own|
    requires forall x :: 0 <= x < |p.blockedOn| && x != t ==> p'.blockedOn[x] == p.blockedOn[x]
    requires forall j :: 0 <= j < k ==> Steps(p, o, j) != t
    ensures Steps(p', o, k) == Steps(p, o, k)
  {
    if k > 0 {
      StepsUntil(p, p', t, o, k - 1);
    }
  }

  lemma {:induction false} StepsAdd(p: Pi, o: int, j: nat, k: nat)
    ensures Steps(p, Steps(p, o, j), k) == Steps(p, o, j + k)
  {
    if k > 0 {
      StepsAdd(p, o, j, k - 1);
    }
  }

  /** What the walk reports, in terms of the chain: 0 when the chain ended without a hit, -EDEADLK
      when it hit, or was longer than `max`. */
  ghost predicate Verdict(p: Pi, o: int, origLock: int, top: int, max: nat, ret: int) {
    || (ret == 0 && exists k: nat ::
          k <= max && EndsAt(p, o, k) && forall j :: 1 <= j <= k ==> !Hit(p, o, j, origLock, top))
    || (ret == EDEADLK && (exists j: nat :: j <= max && Hit(p, o, j, origLock, top)))
    || (ret == EDEADLK && forall k: nat :: k < max ==> !EndsAt(p, o, k))
  }

  /** The deadlock theorem. In a graph without cycles let `t` block on `l`, owned by `o`, with the
      chain from `o` ending within `max` owners. Then the walk reports a deadlock exactly when that
      chain leads to `t`. */
  lemma DeadlockIff(p: Pi, p': Pi, t: Task, l: nat, o: int, n: nat, max: nat, ret: int)
    requires Sizes(p) && Acyclic(p) && LockIn(p, l) && p.owner[l] == o != None && TaskIn(p, t) && p.blockedOn[t] == None
    requires p'.owner == p.owner && |p'.own| == |p.own| && p'.blockedOn == p.blockedOn[t := l]
    requires EndsAt(p, o, n) && n < max && o != t
    requires Verdict(p', o, l, t, max, ret)
    ensures ret == EDEADLK <==> LeadsTo(p, o, t)
    ensures ret == 0 || ret == EDEADLK
  {
    if LeadsTo(p, o, t) {
      ChainHits(p, p', t, l, o, n);
    } else {
      ChainMisses(p, p', t, l, o, n);
    }
  }

  lemma ChainHits(p: Pi, p': Pi, t: Task, l: nat, o: int, n: nat)
    requires Sizes(p) && LockIn(p, l) && TaskIn(p, t) && p.blockedOn[t] == None && o != t
    requires p'.owner == p.owner && |p'.own| == |p.own| && p'.blockedOn == p.blockedOn[t := l]
    requires EndsAt(p, o, n) && LeadsTo(p, o, t)
    ensures Steps(p, o, n) == t && Hit(p', o, n, l, t)
    ensures forall k: nat :: EndsAt(p', o, k) ==> k >= n
  {
    var k: nat :| Steps(p, o, k) == t;
    if k < n {
      StepsBeforeEnd(p, o, n, k + 1);
    } else if k > n {
      StepsAfterEnd(p, o, n, k);
    }
    forall j: nat | j < n ensures Steps(p, o, j) != t {
      StepsBeforeEnd(p, o, n, j + 1);
    }
    forall j: nat | j <= n ensures Steps(p', o, j) == Steps(p, o, j) {
      StepsUntil(p, p', t, o, j);
    }
    forall j: nat | j < n ensures !EndsAt(p', o, j) {
      StepsBeforeEnd(p, o, n, j + 1);
      assert Steps(p', o, j + 1) == Steps(p, o, j + 1);
    }
    assert Steps(p', o, n - 1) == Steps(p, o, n - 1);
  }

  lemma ChainMisses(p: Pi, p': Pi, t: Task, l: nat, o: int, n: nat)
    requires Sizes(p) && Acyclic(p) && LockIn(p, l) && p.owner[l] == o != None && TaskIn(p, t) && p.blockedOn[t] == None
    requires p'.owner == p.owner && |p'.own| == |p.own| && p'.blockedOn == p.blockedOn[t := l]
    requires EndsAt(p, o, n) && !LeadsTo(p, o, t)
    ensures EndsAt(p', o, n) && forall j: nat :: !Hit(p', o, j, l, t)
  {
    forall j: nat ensures Steps(p', o, j) == Steps(p, o, j) {
      StepsUntil(p, p', t, o, j);
    }
    assert Next(p', Steps(p, o, n)) == Next(p, Steps(p, o, n));
    forall j: nat ensures !Hit(p', o, j, l, t) {
      assert Steps(p', o, j) == Steps(p, o, j);
      if j > 0 {
        assert Steps(p, o, j) != o && Steps(p', o, j) == Next(p', Steps(p', o, j - 1));
      }
    }
  }

  // ---------------------------------------------------------------------------
  // What the walk keeps
  // ---------------------------------------------------------------------------

  /** Boosting under way: the waiter of `task` may be behind, but then `task` inherits from the top
      waiter the walk came with. Once the walk stops requeueing everything is right. */
  ghost predicate Climbing(p: Pi, task: Task, requeue: bool, topWaiter: int) {
    && Shape(p) && TaskIn(p, task)
    && if requeue then
         && Keys(p, task)
         && (KeyFresh(p, task)
             || (Less(p.eff[task], p.treeKey[task]) && p.piWaiters[task] != [] && p.piWaiters[task][0] == topWaiter))
       else Keys(p, None)
  }

  /** Where the walk stops requeueing, everything is right. */
  lemma ClimbStops(p: Pi, task: Task, requeue: bool, topWaiter: int)
    requires |p.blockedOn| == |p.piWaiters| == |p.own| == |p.eff| == |p.treeKey| && TaskIn(p, task)
    requires !requeue || p.blockedOn[task] == None || Equal(p.treeKey[task], p.eff[task])
             || (p.piWaiters[task] != [] && p.piWaiters[task][0] != topWaiter)
    ensures Climbing(p, task, requeue, topWaiter) ==> Boosted(p) && Climbing(p, task, false, topWaiter)
  {
    KeysAreOrdered(p.treeKey[task], p.eff[task], p.eff[task]);
  }

  lemma ClimbGoesOn(p: Pi, task: Task, topWaiter: int)
    requires Climbing(p, task, true, topWaiter)
    requires p.blockedOn[task] != None && !Equal(p.treeKey[task], p.eff[task])
    ensures Behind(p, task)
  {
    KeysAreOrdered(p.treeKey[task], p.eff[task], p.eff[task]);
  }

  /** Without requeueing, nothing changes on the way up. */
  lemma ClimbIdle(p: Pi, task: Task, next: Task, topWaiter: int, topNext: int)
    requires Climbing(p, task, false, topWaiter) && TaskIn(p, next)
    ensures Climbing(p, next, false, topNext)
  {
  }

  /** The owner of a lock with waiters has pi waiters. */
  lemma OwnerHasPiWaiters(p: Pi, l: nat)
    requires Shape(p) && LockIn(p, l) && p.owner[l] != None && Top(p, l) != None
    ensures TaskIn(p, p.owner[l]) && p.piWaiters[p.owner[l]] != []
  {
    assert TopsOf(p)[l] == Top(p, l) && Listed(p, TopsOf(p), l);
  }

  lemma Lengths(p: Pi)
    requires Shape(p)
    ensures |p.waiters| == |p.owner| && |p.blockedOn| == |p.piWaiters| == |p.own| == |p.eff| == |p.treeKey|
  {
  }

  lemma BlockedFacts(p: Pi, t: Task)
    requires Shape(p) && TaskIn(p, t) && p.blockedOn[t] != None
    ensures LockIn(p, p.blockedOn[t]) && p.waiters[p.blockedOn[t]] != []
    ensures p.owner[p.blockedOn[t]] == None || TaskIn(p, p.owner[p.blockedOn[t]])
  {
    assert Waits(p, t);
  }

  lemma ShapeFacts(p: Pi)
    requires Shape(p)
    ensures Sizes(p) && Trees(p)
    ensures forall o :: TaskIn(p, o) ==> Valid(p.piWaiters[o], p.piKey)
    ensures forall l :: LockIn(p, l) ==> Valid(p.waiters[l], p.treeKey)
    ensures forall t :: TaskIn(p, t) && p.blockedOn[t] != None ==> p.waiters[p.blockedOn[t]] != []
  {
    forall o | TaskIn(p, o) ensures Valid(p.piWaiters[o], p.piKey) {
      PiTreeValid(p, TopsOf(p), o);
    }
    forall l | LockIn(p, l) ensures Valid(p.waiters[l], p.treeKey) {
      assert Queued(p, l);
    }
    forall t | TaskIn(p, t) && p.blockedOn[t] != None ensures p.waiters[p.blockedOn[t]] != [] {
      assert Waits(p, t);
    }
  }

  lemma NothingHeld(p: Pi)
    requires |p.waiters| == |p.owner|
    requires |p.blockedOn| == |p.piWaiters| == |p.own| == |p.eff| == |p.treeKey| == |p.piKey|
    requires (forall l :: LockIn(p, l) ==> p.owner[l] == None && p.waiters[l] == [])
    requires (forall t :: TaskIn(p, t) ==> p.blockedOn[t] == None && p.piWaiters[t] == []) && p.eff == p.own
    ensures Boosted(p) && Acyclic(p)
  {
    forall t, k: nat | TaskIn(p, t) && k > 0 ensures Steps(p, t, k) != t {
      assert EndsAt(p, t, 0);
      StepsAfterEnd(p, t, 0, k);
    }
  }

  lemma ClimbStarts(p: Pi, task: Task, topWaiter: int)
    requires Shape(p) && Keys(p, task) && TaskIn(p, task)
    requires KeyFresh(p, task)
             || (Less(p.eff[task], p.treeKey[task]) && p.piWaiters[task] != [] && p.piWaiters[task][0] == topWaiter)
    ensures Climbing(p, task, true, topWaiter)
  {
  }

  lemma ClimbDone(p: Pi, task: Task, topWaiter: int)
    requires Boosted(p) && TaskIn(p, task)
    ensures Climbing(p, task, true, topWaiter)
  {
  }

  ghost predicate EndsWithin(p: Pi, o: int, max: nat) {
    exists n: nat :: n < max && EndsAt(p, o, n)
  }

  /** A chain that a walk can follow to its end: the graph has no cycle, the chain from `o` is within
      the limit, and does not lead to `t`. */
  ghost predicate Open(p: Pi, o: int, t: int, max: nat) { Acyclic(p) && EndsWithin(p, o, max) && !LeadsTo(p, o, t) }

  lemma LeadsToSelf(p: Pi, o: int)
    ensures LeadsTo(p, o, o)
  {
    assert Steps(p, o, 0) == o;
  }

  lemma TaskOwns(p: Pi, l: nat)
    requires Shape(p) && LockIn(p, l)
    ensures p.owner[l] == None || TaskIn(p, p.owner[l])
  {
  }

  lemma NotBlockedLeadsNowhere(p: Pi, o: int, t: int)
    requires TaskIn(p, o) && o < |p.blockedOn| && p.blockedOn[o] == None && o != t && t != None
    ensures !LeadsTo(p, o, t)
  {
    assert EndsAt(p, o, 0);
    forall k: nat ensures Steps(p, o, k) != t {
      if k > 0 {
        StepsAfterEnd(p, o, 0, k);
      }
    }
  }

  lemma DeadlockWhen(p: Pi, p': Pi, t: Task, l: nat, o: int, max: nat, ret: int)
    requires Shape(p) && LockIn(p, l) && p.owner[l] == o != None && o != t && TaskIn(p, t) && p.blockedOn[t] == None
    requires p'.owner == p.owner && |p'.own| == |p.own| && p'.blockedOn == p.blockedOn[t := l]
    requires Verdict(p', o, l, t, max, ret)
    ensures Acyclic(p) && EndsWithin(p, o, max) ==> (ret == EDEADLK <==> LeadsTo(p, o, t))
  {
    if Acyclic(p) && EndsWithin(p, o, max) {
      var n: nat :| n < max && EndsAt(p, o, n);
      DeadlockIff(p, p', t, l, o, n, max, ret);
    }
  }

  lemma OwnerIn(p: Pi, l: nat)
    requires Sizes(p) && LockIn(p, l) && p.owner[l] != None
    ensures TaskIn(p, p.owner[l])
  {
  }

  /** When `t` comes to the top, the old top is what stands at the owner. */
  lemma NewTopIsStale(p: Pi, l: nat, t: Task)
    requires Shape(p) && LockIn(p, l) && TaskIn(p, t) && p.blockedOn[t] == None
    ensures var p1 := Blocked(p, l, t);
            && Trees(p1) && p1.piKey[t] == p1.treeKey[t]
            && (Top(p1, l) == t ==> StaleTop(p, l, t) >= 0 && Stale(p1, l, Top(p, l), StaleTop(p, l, t), t))
  {
    hide Trees, PiTrees;
    TreesAreSized(p);
    BlockedKeepsTrees(p, l, t);
    TreesAreSized(Blocked(p, l, t));
    if Top(p, l) != None {
      TopIsBlocked(p, l);
    }
  }

  /** With priority inheritance in full effect, every transitive owner is at least as urgent as the
      task that waits. */
  lemma {:induction false} TransitiveOwnersCover(p: Pi, t: Task, k: nat)
    requires Boosted(p) && TaskIn(p, t) && Steps(p, t, k) != None
    ensures TaskIn(p, Steps(p, t, k)) && Covers(p.eff[Steps(p, t, k)], p.eff[t])
  {
    hide Trees, PiTrees, KeyFresh, PiKeyFresh, Inherits;
    if k > 0 {
      var u := Steps(p, t, k - 1);
      TransitiveOwnersCover(p, t, k - 1);
      OwnersCover(p, u);
      KeysAreOrdered(p.eff[t], p.eff[u], p.eff[Steps(p, t, k)]);
    }
  }

  /** The first `k` owners of the chain were passed without a hit or an end. */
  ghost predicate Walked(p: Pi, o: int, k: nat, origLock: int, top: int) {
    && (forall j: nat :: j <= k ==> !Hit(p, o, j, origLock, top))
    && (forall j: nat :: j < k ==> !EndsAt(p, o, j))
  }

  lemma WalkStarts(p: Pi, o: int, origLock: int, top: int)
    ensures Walked(p, o, 0, origLock, top) && Steps(p, o, 0) == o
  {
  }

  lemma TooLong(p: Pi, o: int, origLock: int, top: int, max: nat)
    requires Walked(p, o, max, origLock, top)
    ensures Verdict(p, o, origLock, top, max, EDEADLK)
  {
  }

  /** The `k`-th lock is a hit. */
  lemma WalkHits(p: Pi, o: int, k: nat, origLock: int, top: int, max: nat, lock: int)
    requires 0 < k <= max && TaskIn(p, Steps(p, o, k - 1)) && Steps(p, o, k - 1) < |p.blockedOn|
    requires p.blockedOn[Steps(p, o, k - 1)] == lock && LockIn(p, lock) && (lock == origLock || p.owner[lock] == top)
    ensures Verdict(p, o, origLock, top, max, EDEADLK)
  {
    assert Hit(p, o, k, origLock, top);
  }

  lemma WalkEnds(p: Pi, o: int, k: nat, origLock: int, top: int, max: nat)
    requires k <= max && Walked(p, o, k, origLock, top) && TaskIn(p, Steps(p, o, k)) && Steps(p, o, k) < |p.blockedOn|
    requires var l := p.blockedOn[Steps(p, o, k)]; l == None || (LockIn(p, l) && p.owner[l] == None)
    ensures Verdict(p, o, origLock, top, max, 0)
  {
    assert EndsAt(p, o, k);
  }

  lemma WalkedOn(p: Pi, o: int, k: nat, origLock: int, top: int, lock: int)
    requires k > 0 && Walked(p, o, k - 1, origLock, top)
    requires TaskIn(p, Steps(p, o, k - 1)) && Steps(p, o, k - 1) < |p.blockedOn|
    requires p.blockedOn[Steps(p, o, k - 1)] == lock && LockIn(p, lock)
    requires lock != origLock && p.owner[lock] != top && p.owner[lock] != None
    ensures Walked(p, o, k, origLock, top) && Steps(p, o, k) == p.owner[lock]
  {
  }

  lemma ShapeIsFirst(p: Pi, l: nat)
    requires Shape(p) && LockIn(p, l)
    ensures FirstInLine(p, l)
  {
    hide Trees, PiTrees, FirstInLine;
    TopIsFirst(p, l);
  }

  class RtMutexes {

    var owner: seq<int>
    var waiters: seq<seq<Task>>
    var blockedOn: seq<int>
    var piWaiters: seq<seq<Task>>
    var own: seq<Key>
    var eff: seq<Key>
    var treeKey: seq<Key>
    var piKey: seq<Key>
    const maxLockDepth: nat
    /** CONFIG_DEBUG_RT_MUTEXES. */
    const debug: bool
    /** RT_MUTEX_BUILD_SPINLOCKS. */
    const spinlocks: bool

    ghost function Now(): Pi
      reads this
    {
      Pi(owner, waiters, blockedOn, piWaiters, own, eff, treeKey, piKey)
    }

    /** No locks held: `prios` and `deadlines` are those of the tasks. */
    constructor (locks: nat, prios: seq<int>, deadlines: seq<int>, maxLockDepth: nat, debug: bool, spinlocks: bool)
      requires |prios| == |deadlines| && forall i :: 0 <= i < |prios| ==> -1 <= prios[i]
      ensures Boosted(Now()) && Acyclic(Now()) && |owner| == locks && |own| == |prios|
      ensures forall i :: 0 <= i < |prios| ==> own[i] == TaskKey(prios[i], deadlines[i])
      ensures this.maxLockDepth == maxLockDepth && this.debug == debug && this.spinlocks == spinlocks
    {
      this.maxLockDepth, this.debug, this.spinlocks := maxLockDepth, debug, spinlocks;
      owner, waiters := seq(locks, (i: int) => None), seq(locks, (i: int) => []);
      var keys: seq<Key> := seq(|prios|, i requires 0 <= i < |prios| => TaskKey(prios[i], deadlines[i]));
      blockedOn, piWaiters := seq(|keys|, (i: int) => None), seq(|keys|, (i: int) => []);
      own, eff, treeKey, piKey := keys, keys, keys, keys;
      new;
      NothingHeld(Now());
    }

    method RequeueWaiter(l: nat, t: Task)
      requires Trees(Now()) && LockIn(Now(), l) && TaskIn(Now(), t)
      modifies this`waiters, this`treeKey
      ensures Now() == Requeue(old(Now()), l, t)
    {
      RequeueValid(Now(), l, t);
      waiters := waiters[l := Remove(waiters[l], t)];
      treeKey := treeKey[t := eff[t]];
      waiters := waiters[l := Insert(waiters[l], treeKey, t)];
    }

    method ReplaceTop(o: nat, stale: Task, t: Task)
      requires Sizes(Now()) && TaskIn(Now(), o) && TaskIn(Now(), t) && Valid(piWaiters[o], piKey)
      modifies this`piWaiters, this`piKey, this`eff
      ensures Now() == Replace(old(Now()), o, stale, t)
    {
      RemoveValid(piWaiters[o], piKey, stale);
      piWaiters := piWaiters[o := Remove(piWaiters[o], stale)];
      piKey := piKey[t := treeKey[t]];
      InsertValid(piWaiters[o], piKey, t);
      piWaiters := piWaiters[o := Insert(piWaiters[o], piKey, t)];
      AdjustPriority(o);
    }

    /** rt_mutex_adjust_prio. */
    method AdjustPriority(o: nat)
      requires o < |piWaiters| && o < |eff| && o < |own| && Valid(piWaiters[o], eff)
      modifies this`eff
      ensures Now() == AdjustPrio(old(Now()), o)
    {
      if piWaiters[o] == [] {
        eff := eff[o := own[o]];
      } else {
        eff := eff[o := Best(own[o], eff[piWaiters[o][0]])];
      }
    }

    /** Steps [7] to [12] of the walk: requeue the waiter of `t`, and bring the owner's tree and
        priority up to date. */
    method StepUp(l: nat, t: Task) returns (waiter: Task, top: Task)
      requires Shape(Now()) && LockIn(Now(), l) && TaskIn(Now(), t) && blockedOn[t] == l
      modifies this`waiters, this`treeKey, this`piWaiters, this`piKey, this`eff
      ensures Shape(Now()) && Now() == Stepped(old(Now()), l, t) && Top(Now(), l) == top
      ensures owner[l] == None || waiter != top <==> old(Aside(Now(), l, t))
      ensures old(Behind(Now(), t)) && (owner[l] == None || waiter != top) ==> Boosted(Now())
      ensures old(Behind(Now(), t)) && owner[l] != None ==> Climbing(Now(), owner[l], true, top)
    {
      hide Sorted, Insert, Remove, Trees, PiTrees, Queued, Waits, Shape;
      hide Keys, Requeue, Replace, Stale, Pushing, Climbing, Behind, Sizes, Boosted;
      ghost var p := Now();
      ShapeFacts(p);
      SteppedKeepsShape(p, l, t);
      var before := waiters[l][0];
      RequeueWaiter(l, t);
      ghost var p1 := Now();
      RequeueKeepsPiTrees(p, l, t);
      RequeueKeepsTrees(p, l, t);
      TreesAreSized(p1);
      TopIsBlocked(p1, l);
      ghost var boost := Behind(p, t);
      if boost {
        Requeued(p, t);
      }
      waiter, top := t, waiters[l][0];
      if owner[l] == None {
        return;
      }
      DemotedIsStale(p, l, t);
      var o := owner[l];
      if waiter == top {
        ReplaceKeepsShape(p1, l, before, before, waiter);
        ReplaceTop(o, before, waiter);
        if boost {
          Pushed(p1, l, before, before, waiter);
          ClimbStarts(Now(), o, top);
        }
      } else if before == waiter {
        waiter := top;
        ReplaceKeepsShape(p1, l, before, before, waiter);
        ReplaceTop(o, before, waiter);
      } else if boost {
        ClimbDone(Now(), o, top);
      }
    }

    /** rt_mutex_cond_detect_deadlock. */
    function Detects(waiter: int, full: bool): (r: bool)
      reads this
      ensures !debug ==> r == full
      ensures debug ==> (r <==> waiter != None)
    {
      if debug then waiter != None else full
    }

    /** The exit conditions [3]: is there anything left to hand on, or to detect? */
    method Inspect(task: Task, topWaiter: int, requeue: bool, detect: bool) returns (stop: bool, requeue': bool)
      requires |blockedOn| == |piWaiters| == |own| == |eff| == |treeKey| && TaskIn(Now(), task)
      ensures stop && Climbing(Now(), task, requeue, topWaiter) ==>
                Boosted(Now()) || (topWaiter != None && piWaiters[task] == [])
      ensures stop ==> !detect || (topWaiter != None && piWaiters[task] == [])
      ensures !stop && Climbing(Now(), task, requeue, topWaiter) ==> Climbing(Now(), task, requeue', topWaiter)
      ensures !stop && requeue' ==> requeue && !Equal(treeKey[task], eff[task])
      ensures !detect ==> requeue' == requeue
      ensures !detect ==>
                (stop <==> Equal(treeKey[task], eff[task])
                           || (topWaiter != None && (piWaiters[task] == [] || piWaiters[task][0] != topWaiter)))
      ensures !stop && !requeue && Climbing(Now(), task, requeue, topWaiter) ==> Boosted(Now())
    {
      hide Shape, Keys, Climbing, Boosted;
      requeue' := requeue;
      if !requeue {
        ClimbStops(Now(), task, requeue, topWaiter);
      }
      if topWaiter != None {
        if piWaiters[task] == [] {
          return true, requeue';
        }
        if topWaiter != piWaiters[task][0] {
          ClimbStops(Now(), task, requeue, topWaiter);
          if !detect {
            return true, requeue';
          }
          requeue' := false;
        }
      }
      if Equal(treeKey[task], eff[task]) {
        ClimbStops(Now(), task, requeue, topWaiter);
        if !detect {
          return true, requeue';
        }
        requeue' := false;
      }
      return false, requeue';
    }

    /** Steps [7] to [12], or without requeueing only the way to the next owner. */
    method Climb(l: nat, t: Task, topWaiter: int, requeue: bool, ghost m: int) returns (waiter: Task, top: Task)
      requires Shape(Now()) && LockIn(Now(), l) && TaskIn(Now(), t) && blockedOn[t] == l
      requires |treeKey| == |eff| == |own| && (requeue ==> !Equal(treeKey[t], eff[t]))
      modifies this`waiters, this`treeKey, this`piWaiters, this`piKey, this`eff
      ensures Shape(Now()) && Now() == (if requeue then Stepped(old(Now()), l, t) else old(Now()))
      ensures Top(Now(), l) == top && (m != l ==> QueueKept(old(Now()), Now(), m))
      ensures requeue ==> (owner[l] == None || waiter != top <==> old(Aside(Now(), l, t)))
      ensures old(Climbing(Now(), t, requeue, topWaiter)) ==>
                && (owner[l] == None || (requeue && waiter != top) ==> Boosted(Now()))
                && (owner[l] != None ==> Climbing(Now(), owner[l], requeue, top))
    {
      hide Shape, Keys, Climbing, Behind, Boosted, Sizes, KeyFresh, Less, Equal, Stepped, Aside, QueueKept;
      ghost var boost := Climbing(Now(), t, requeue, topWaiter);
      QueueKeptSame(Now(), m);
      if m != l {
        SteppedElsewhere(Now(), l, t, m);
      }
      Lengths(Now());
      BlockedFacts(Now(), t);
      if requeue {
        if boost {
          ClimbGoesOn(Now(), t, topWaiter);
        }
        waiter, top := StepUp(l, t);
      } else {
        waiter, top := t, waiters[l][0];
        ClimbStops(Now(), t, requeue, topWaiter);
        if boost && owner[l] != None {
          ClimbIdle(Now(), t, owner[l], topWaiter, top);
        }
      }
    }

    /** rt_mutex_adjust_prio_chain, walked from `first`, the owner of `origLock`, which is blocked on
        `firstLock`. */
    method AdjustPrioChain(first: Task, full: bool, origLock: int, firstLock: int, origWaiter: int, topTask: Task)
      returns (ret: int)
      requires Shape(Now()) && TaskIn(Now(), first) && firstLock == blockedOn[first] != None
      requires origWaiter != None ==> LockIn(Now(), origLock) && owner[origLock] != None && piWaiters[first] != []
      modifies this`waiters, this`treeKey, this`piWaiters, this`piKey, this`eff
      ensures Shape(Now())
      ensures origWaiter != None && old(Climbing(Now(), first, true, origWaiter)) && ret == 0 ==> Boosted(Now())
      ensures ret == 0 || ret == EDEADLK
      ensures Detects(origWaiter, full) || ret == EDEADLK ==>
                Verdict(old(Now()), first, origLock, topTask, maxLockDepth, ret)
      ensures QueueKept(old(Now()), Now(), origLock)
      ensures origWaiter == None && !full && old(Keys(Now(), first)) ==>
                (Boosted(Now()) <==> Settles(old(Now()), first, None, origLock, topTask, maxLockDepth))
    {
      hide Shape, Keys, Climbing, Behind, Boosted, Sizes, Verdict, KeyFresh, Walked, Steps, Less, Equal;
      hide Settles, QueueKept, Stepped, Aside, Stops, Dropping, Top, Verdict;
      ghost var p0 := Now();
      var detect := Detects(origWaiter, full);
      ghost var drop := origWaiter == None && !full && Keys(p0, first);
      ghost var boost := origWaiter != None && Climbing(p0, first, true, origWaiter);
      var task, nextLock, topWaiter, requeue, depth := first, firstLock, origWaiter, true, 0;
      WalkStarts(p0, first, origLock, topTask);
      Lengths(p0);
      QueueKeptSame(p0, origLock);
      if drop {
        DropStarts(p0, first, origLock, topTask, maxLockDepth);
      }
      while true
        invariant |blockedOn| == |piWaiters| == |own|
        invariant Shape(Now()) && TaskIn(Now(), task) && nextLock == blockedOn[task] != None
        invariant topWaiter != None ==> piWaiters[task] != []
        invariant boost ==> Climbing(Now(), task, requeue, topWaiter)
        invariant 0 <= depth <= maxLockDepth && Walked(p0, first, depth, origLock, topTask)
        invariant Steps(p0, first, depth) == task
        invariant QueueKept(p0, Now(), origLock)
        invariant drop ==>
                    var n := maxLockDepth - depth;
                    requeue && Dropping(p0, first, Now(), task, topWaiter, origLock, topTask, maxLockDepth, n)
        decreases maxLockDepth - depth
      {
        Lengths(Now());
        BlockedFacts(Now(), task);
        ghost var now, at, n := Now(), task, maxLockDepth - depth;
        if drop {
          DropDecides(p0, first, now, task, topWaiter, origLock, topTask, maxLockDepth, n);
        }
        depth := depth + 1;
        if depth > maxLockDepth {
          TooLong(p0, first, origLock, topTask, maxLockDepth);
          return EDEADLK;
        }
        var lock := blockedOn[task];
        if lock == None {
          return 0;
        }
        if origWaiter != None && owner[origLock] == None {
          return 0;
        }
        if nextLock != lock {
          return 0;
        }
        var stop;
        stop, requeue := Inspect(task, topWaiter, requeue, detect);
        if stop {
          return 0;
        }
        if lock == origLock || owner[lock] == topTask {
          WalkHits(p0, first, depth, origLock, topTask, maxLockDepth, lock);
          return EDEADLK;
        }
        var waiter;
        waiter, topWaiter := Climb(lock, task, topWaiter, requeue, origLock);
        QueueKeptTwice(p0, now, Now(), origLock);
        Lengths(Now());
        if owner[lock] == None {
          WalkEnds(p0, first, depth - 1, origLock, topTask, maxLockDepth);
          return 0;
        }
        OwnerHasPiWaiters(Now(), lock);
        task := owner[lock];
        nextLock := blockedOn[task];
        WalkedOn(p0, first, depth, origLock, topTask, lock);
        if nextLock == None {
          ClimbStops(Now(), task, requeue, topWaiter);
          if drop && !Aside(now, lock, at) {
            DropEnds(p0, first, Now(), task, topWaiter, origLock, topTask, maxLockDepth, maxLockDepth - depth);
          }
          WalkEnds(p0, first, depth, origLock, topTask, maxLockDepth);
          return 0;
        }
        if requeue && !detect && waiter != topWaiter {
          return 0;
        }
      }
    }

    /** Fill in the waiter of `t` and queue it. */
    method QueueWaiter(l: nat, t: Task)
      requires Trees(Now()) && LockIn(Now(), l) && TaskIn(Now(), t)
      modifies this`waiters, this`blockedOn, this`treeKey, this`piKey
      ensures Now() == Blocked(old(Now()), l, t)
    {
      assert Queued(Now(), l);
      treeKey := treeKey[t := eff[t]];
      piKey := piKey[t := treeKey[t]];
      waiters := waiters[l := Insert(waiters[l], treeKey, t)];
      blockedOn := blockedOn[t := l];
    }

    /** The new top waiter replaces the old one at the owner. */
    method PushTop(o: nat, stale: Task, t: Task)
      requires Sizes(Now()) && TaskIn(Now(), o) && TaskIn(Now(), t) && Valid(piWaiters[o], piKey)
      requires piKey[t] == treeKey[t]
      modifies this`piWaiters, this`eff
      ensures Now() == Replace(old(Now()), o, stale, t)
    {
      RemoveValid(piWaiters[o], piKey, stale);
      piWaiters := piWaiters[o := Remove(piWaiters[o], stale)];
      assert piKey[t := treeKey[t]] == piKey;
      InsertValid(piWaiters[o], piKey, t);
      piWaiters := piWaiters[o := Insert(piWaiters[o], piKey, t)];
      AdjustPriority(o);
    }

    /** task_blocks_on_rt_mutex up to the walk: queue the waiter, and boost the owner if the waiter
        comes to the top. */
    method Enlist(l: nat, t: Task, o: int, full: bool) returns (chainWalk: bool)
      requires Shape(Now()) && LockIn(Now(), l) && TaskIn(Now(), t) && blockedOn[t] == None && owner[l] == o != t
      modifies this`waiters, this`blockedOn, this`treeKey, this`piWaiters, this`piKey, this`eff
      ensures Shape(Now()) && blockedOn == old(blockedOn)[t := l]
      ensures o == None ==> !chainWalk
      ensures old(Boosted(Now())) ==>
                if o == None then Boosted(Now()) else TaskIn(Now(), o) && Climbing(Now(), o, true, t)
      ensures old(Boosted(Now())) && !chainWalk ==> Boosted(Now())
      ensures o != None ==> TaskIn(Now(), o) && piWaiters[o] != []
      ensures o != None && Detects(t, full) && blockedOn[o] != None ==> chainWalk
    {
      hide Shape, Keys, Climbing, Boosted, KeyFresh, Less, Sorted;
      hide Insert, Remove, Trees, PiTrees, Pushing, Stale, Replace, Sizes;
      ghost var p := Now();
      ShapeFacts(p);
      Lengths(p);
      BlockedKeepsTrees(p, l, t);
      ghost var boost := Boosted(p);
      if boost {
        BlockedIsReady(p, l, t);
      }
      var top := if waiters[l] != [] then waiters[l][0] else t;
      QueueWaiter(l, t);
      ghost var p1 := Now();
      chainWalk := false;
      if o == None {
        return;
      }
      TreesAreSized(p1);
      OwnerIn(p1, l);
      if waiters[l][0] == t {
        NewTopIsStale(p, l, t);
        ReplaceKeepsShape(p1, l, Top(p, l), top, t);
        if boost {
          Pushed(p1, l, Top(p, l), top, t);
        }
        PushTop(o, top, t);
        if boost {
          ClimbStarts(Now(), o, t);
        }
        if blockedOn[o] != None {
          chainWalk := true;
        } else if boost {
          Lengths(Now());
          ClimbStops(Now(), o, true, t);
        }
      } else {
        if boost {
          ClimbDone(Now(), o, t);
        }
        if Detects(t, full) {
          chainWalk := true;
        }
      }
      OwnerHasPiWaiters(Now(), l);
    }

    /** task_blocks_on_rt_mutex: `t` starts to wait for `l`, and boosts the owners ahead. On a
        reported deadlock the waiter stays queued, for the caller to remove. */
    method TaskBlocksOn(l: nat, t: Task, full: bool) returns (ret: int)
      requires Shape(Now()) && LockIn(Now(), l) && TaskIn(Now(), t) && blockedOn[t] == None
      modifies this`waiters, this`blockedOn, this`treeKey, this`piWaiters, this`piKey, this`eff
      ensures Shape(Now())
      ensures owner[l] == t ==> ret == EDEADLK && Now() == old(Now())
      ensures owner[l] != t ==> blockedOn == old(blockedOn)[t := l]
      ensures FirstInLine(Now(), l)
      ensures ret == 0 && old(Boosted(Now())) ==> Boosted(Now())
      ensures owner[l] == None ==> ret == 0
      ensures Detects(t, full) && owner[l] != None && old(Acyclic(Now()))
                && EndsWithin(old(Now()), owner[l], maxLockDepth) ==>
                (ret == EDEADLK <==> LeadsTo(old(Now()), owner[l], t))
      ensures owner[l] != None && Open(old(Now()), owner[l], t, maxLockDepth) ==>
                ret == 0 && (old(Boosted(Now())) ==> Boosted(Now()))
      ensures ret == 0 || ret == EDEADLK
    {
      hide Shape, Keys, Climbing, Boosted, Sizes, Verdict, Acyclic, LeadsTo, EndsWithin, FirstInLine;
      ghost var p := Now();
      var o := owner[l];
      if o == t {
        LeadsToSelf(p, o);
        ShapeIsFirst(p, l);
        return EDEADLK;
      }
      var chainWalk := Enlist(l, t, o, full);
      ghost var p2 := Now();
      ret := 0;
      Lengths(p);
      Lengths(p2);
      if chainWalk && blockedOn[o] != None {
        ret := AdjustPrioChain(o, full, l, blockedOn[o], t, t);
        if Detects(t, full) || ret == EDEADLK {
          DeadlockWhen(p, p2, t, l, o, maxLockDepth, ret);
        }
      } else if o != None {
        if blockedOn[o] == None {
          ClimbStops(p2, o, true, t);
          NotBlockedLeadsNowhere(p, o, t);
        }
      }
      ShapeIsFirst(Now(), l);
    }

    /** rt_mutex_steal. With RT_MUTEX_BUILD_SPINLOCKS equals may steal, unless they are real-time. */
    predicate Steals(key: Key, top: Key) {
      Less(key, top) || (spinlocks && key.prio >= MAX_RT_PRIO && Equal(key, top))
    }

    /** try_to_take_rt_mutex, for a task that waits for `l`, or for one that does not wait at all. */
    method TryToTake(l: nat, t: Task) returns (taken: bool)
      requires Shape(Now()) && LockIn(Now(), l) && TaskIn(Now(), t) && (blockedOn[t] == l || blockedOn[t] == None)
      modifies this`owner, this`waiters, this`blockedOn, this`piWaiters
      ensures Shape(Now())
      ensures taken <==> old(owner[l] == None && MayTake(Now(), l, t, spinlocks))
      ensures taken ==> owner == old(owner)[l := t] && blockedOn == old(blockedOn)[t := None]
      ensures !taken ==> Now() == old(Now())
      ensures taken && old(Boosted(Now())) ==> (Boosted(Now()) <==> old(TakesWell(Now(), l, t)))
    {
      hide Shape, Sorted, Insert, Remove, Trees, PiTrees, Sizes, Boosted, HeirIsFresh;
      ghost var p := Now();
      ShapeFacts(p);
      Lengths(p);
      HeadsIn(p, l, t);
      if owner[l] != None {
        return false;
      }
      if waiters[l] != [] {
        KeysAreOrdered(if blockedOn[t] == l then treeKey[t] else eff[t], treeKey[waiters[l][0]], eff[t]);
      }
      if blockedOn[t] == l {
        BlockedFacts(p, t);
        if t == waiters[l][0] || Steals(treeKey[t], treeKey[waiters[l][0]]) {
          waiters := waiters[l := Remove(waiters[l], t)];
        } else {
          return false;
        }
      } else if waiters[l] != [] {
        if !Steals(eff[t], treeKey[waiters[l][0]]) {
          return false;
        }
      }
      blockedOn := blockedOn[t := None];
      LeftTheQueue(p, Now(), l, t);
      ghost var p1 := Now();
      ShapeFacts(p1);
      HeadsIn(p1, l, t);
      TakenOver(p1, l, t);
      if waiters[l] != [] {
        piWaiters := piWaiters[t := Insert(piWaiters[t], piKey, waiters[l][0])];
      }
      owner := owner[l := t];
      if Boosted(p) {
        TakenIsFreshIff(p, Now(), l, t, spinlocks);
      }
      return true;
    }

    /** mark_wakeup_next_waiter: the owner of `l` gives it up for the top waiter to take. */
    method WakeNext(l: nat)
      requires Shape(Now()) && LockIn(Now(), l) && owner[l] != None && waiters[l] != []
      modifies this`owner, this`piWaiters, this`eff
      ensures Shape(Now()) && owner == old(owner)[l := None]
      ensures eff == old(eff)[old(owner[l]) := eff[old(owner[l])]]
      ensures old(Boosted(Now()) && TaskIn(Now(), owner[l]) && blockedOn[owner[l]] == None) ==> Boosted(Now())
    {
      hide Shape, Sorted, Remove, Trees, PiTrees, Sizes, Boosted;
      ghost var p := Now();
      ShapeFacts(p);
      Lengths(p);
      TaskOwns(p, l);
      var o := owner[l];
      TopDequeued(p, l);
      if Boosted(p) {
        GivenUpIsFresh(p, l);
      }
      RemoveValid(piWaiters[o], piKey, waiters[l][0]);
      piWaiters := piWaiters[o := Remove(piWaiters[o], waiters[l][0])];
      AdjustPriority(o);
      owner := owner[l := None];
      Released(p, Now(), l);
    }

    /** remove_waiter: `t` gives up waiting for `l`; a deboosted owner passes it on. */
    method RemoveWaiter(l: nat, t: Task)
      requires Shape(Now()) && LockIn(Now(), l) && TaskIn(Now(), t) && blockedOn[t] == l
      modifies this`waiters, this`blockedOn, this`piWaiters, this`eff, this`treeKey, this`piKey
      ensures Shape(Now()) && blockedOn == old(blockedOn)[t := None]
      ensures old(Boosted(Now())) ==> (Boosted(Now()) <==> old(LeavesWell(Now(), l, t, maxLockDepth)))
    {
      hide Shape, Sorted, Insert, Remove, Trees, PiTrees, Sizes, Boosted, Keys, Settles, QueueKept, HeirIsFresh;
      ghost var p := Now();
      ShapeFacts(p);
      Lengths(p);
      BlockedFacts(p, t);
      TaskOwns(p, l);
      var isTop := t == waiters[l][0];
      var o := owner[l];
      waiters := waiters[l := Remove(waiters[l], t)];
      blockedOn := blockedOn[t := None];
      if o == None || !isTop {
        LeftBehind(p, l, t);
        if Boosted(p) {
          LeftBehindIsFresh(p, l, t);
        }
        return;
      }
      TopLeft(p, l, t);
      LeftShape(p, l, t);
      RemoveValid(piWaiters[o], piKey, t);
      piWaiters := piWaiters[o := Remove(piWaiters[o], t)];
      if waiters[l] != [] {
        InsertValid(piWaiters[o], piKey, waiters[l][0]);
        piWaiters := piWaiters[o := Insert(piWaiters[o], piKey, waiters[l][0])];
      }
      ghost var p1 := Now();
      AdjustPriority(o);
      ShapeFrame(p1, Now());
      Lengths(Now());
      ghost var p2 := Now();
      assert p2 == Left(p, l, t);
      if blockedOn[o] == None {
        if Boosted(p) {
          LeftAlone(p, l, t, maxLockDepth);
        }
        return;
      }
      var ret := AdjustPrioChain(o, false, l, blockedOn[o], None, t);
      if Boosted(p) {
        LeftBlocked(p, p2, Now(), l, t, maxLockDepth);
      }
    }

    /** __rt_mutex_start_proxy_lock: take the lock for `t`, or make it wait, with full detection. */
    method StartProxyLock(l: nat, t: Task) returns (ret: int)
      requires Shape(Now()) && LockIn(Now(), l) && TaskIn(Now(), t) && blockedOn[t] == None
      modifies this
      ensures Shape(Now())
      ensures ret == 1 <==> old(owner[l] == None && MayTake(Now(), l, t, spinlocks))
      ensures ret == 1 ==> owner == old(owner)[l := t]
      ensures ret != 1 ==> owner == old(owner)
      ensures ret == 0 && old(Boosted(Now())) ==> Boosted(Now())
      ensures old(owner[l]) != None && old(Acyclic(Now())) && EndsWithin(old(Now()), old(owner[l]), maxLockDepth) ==>
                (ret == EDEADLK <==> LeadsTo(old(Now()), old(owner[l]), t))
      ensures ret == 0 || ret == 1 || ret == EDEADLK
    {
      hide Shape, Boosted, Acyclic, LeadsTo, EndsWithin, MayTake;
      var taken := TryToTake(l, t);
      if taken {
        return 1;
      }
      ret := TaskBlocksOn(l, t, true);
      if ret != 0 && owner[l] == None {
        ret := 0;
      }
    }
  }
}
