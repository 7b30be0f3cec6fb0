/** Priority inheritance where it is taken back: what giving a lock up, taking it, or giving up waiting
    does to the trees and keys of tests/locking/rtmutex.c, and when all keys are right afterwards. */
module PiRelease {

  import opened PiState

  /** May `t` have the unowned lock `l`? The top waiter may; anyone else must be more urgent than
      it, or as urgent where lateral steals are allowed; and no one is in the way when no one waits. */
  ghost predicate MayTake(p: Pi, l: nat, t: Task, spinlocks: bool)
    requires Shape(p) && LockIn(p, l) && TaskIn(p, t)
  {
    var key := if p.blockedOn[t] == l then p.treeKey[t] else p.eff[t];
    Top(p, l) == None || Top(p, l) == t ||
    (TaskIn(p, Top(p, l)) &&
     (Less(key, p.treeKey[Top(p, l)]) || (spinlocks && key.prio >= MAX_RT_PRIO && key == p.treeKey[Top(p, l)])))
  }

  /** In terms of prios and deadlines, for a task that does not wait: it goes before the top waiter, or
      both are fair tasks and lateral steals are allowed. */
  lemma MayTakeIff(p: Pi, l: nat, t: Task, spinlocks: bool)
    requires Shape(p) && LockIn(p, l) && TaskIn(p, t) && p.blockedOn[t] == None && Top(p, l) != None
    ensures TaskIn(p, Top(p, l))
    ensures var mine, top := p.eff[t], p.treeKey[Top(p, l)];
            MayTake(p, l, t, spinlocks) <==>
            || mine.prio < top.prio || (mine.prio == top.prio == -1 && mine.deadline < top.deadline)
            || (spinlocks && mine.prio == top.prio >= 100)
  {
    HeadsIn(p, l, t);
    CoversIsNoLater(p.treeKey[Top(p, l)], p.eff[t]);
    KeysAreOrdered(p.eff[t], p.treeKey[Top(p, l)], p.eff[t]);
  }

  lemma HeadsIn(p: Pi, l: nat, t: Task)
    requires Shape(p) && LockIn(p, l) && TaskIn(p, t)
    ensures Top(p, l) != None ==> TaskIn(p, Top(p, l)) && (p.blockedOn[t] != l ==> Top(p, l) != t)
  {
    if Top(p, l) != None {
      TopIsBlocked(p, l);
    }
  }

  /** Out of the tree of the unowned lock, or never in it. */
  lemma LeftTheQueue(p: Pi, p': Pi, l: nat, t: Task)
    requires Shape(p) && LockIn(p, l) && TaskIn(p, t) && p.owner[l] == None
    requires if p.blockedOn[t] == l then p' == Unblock(p, l, t)
             else p.blockedOn[t] == None && p' == p.(blockedOn := p.blockedOn[t := None])
    ensures Shape(p') && p'.blockedOn[t] == None
  {
    hide Trees, PiTrees, Sorted, Remove;
    TreesAreSized(p);
    if p.blockedOn[t] == l {
      UnblockKeepsTrees(p, l, t);
      TreesAreSized(p');
      UnblockTops(p, l, t);
      PiTreesFrame(p, p', TopsOf(p), t);
      if Top(p', l) != None {
        TopIsBlocked(p', l);
        NotAnotherTopIn(p', TopsOf(p), l);
      }
      UnownedTop(p', TopsOf(p), l, Top(p', l));
    } else {
      assert p' == p;
    }
  }

  lemma UnblockTops(p: Pi, l: nat, t: Task)
    requires Sizes(p) && LockIn(p, l) && TaskIn(p, t)
    ensures var p' := Unblock(p, l, t);
            TopsOf(p') == TopsOf(p)[l := Top(p', l)] && (Top(p', l) == Top(p, l) ==> TopsOf(p') == TopsOf(p))
            && TopsOf(p')[l := Top(p, l)] == TopsOf(p)
  {
    var p' := Unblock(p, l, t);
    assert forall m :: LockIn(p, m) && m != l ==> Top(p', m) == Top(p, m);
    assert Top(p', l) == Top(p, l) ==> TopsOf(p') == TopsOf(p);
  }

  /** The new owner of an unowned lock, with the top waiter in its tree. */
  lemma TakenOver(p: Pi, l: nat, t: Task)
    requires Shape(p) && LockIn(p, l) && TaskIn(p, t) && p.owner[l] == None
    ensures Valid(p.piWaiters[t], p.piKey)
    ensures Top(p, l) == None ==> Shape(SetOwner(p, l, t))
    ensures Top(p, l) != None ==> TaskIn(p, Top(p, l)) && Shape(SetOwner(EnqueuePi(p, t, Top(p, l)), l, t))
  {
    hide Trees, PiTrees, Sorted, Insert;
    TreesAreSized(p);
    PiTreeValid(p, TopsOf(p), t);
    UnownedTop(p, TopsOf(p), l, None);
    var tops := TopsOf(p)[l := None];
    var p1 := SetOwner(p, l, t);
    OwnerOfFree(p, tops, l, t);
    assert Sizes(p1);
    TreesFrame(p, p1);
    assert TopsOf(p1) == TopsOf(p);
    if Top(p, l) != None {
      TopIsBlocked(p1, l);
      NotAnotherTopIn(p1, tops, l);
      EnqueuePiKeeps(p1, tops, l, Top(p, l));
      var p2 := EnqueuePi(p1, t, Top(p, l));
      assert tops[l := Top(p, l)] == TopsOf(p2);
      TreesFrame(p1, p2);
      assert p2 == SetOwner(EnqueuePi(p, t, Top(p, l)), l, t);
    } else {
      assert tops == TopsOf(p);
    }
  }

  /** A lock that no one stands for can change owners. */
  lemma OwnerOfFree(p: Pi, tops: Tops, l: nat, o: int)
    requires PiTrees(p, tops) && LockIn(p, l) && tops[l] == None && (o == None || TaskIn(p, o))
    ensures PiTrees(SetOwner(p, l, o), tops)
  {
    var p' := SetOwner(p, l, o);
    forall x | TaskIn(p', x) ensures PiTree(p', tops, x) {
      assert PiTree(p, tops, x);
      forall w | w in p'.piWaiters[x] ensures Represents(p', tops, x, w) {
        assert Represents(p, tops, x, w);
        var m :| LockIn(p, m) && p.owner[m] == x && tops[m] == w;
        assert LockIn(p', m) && p'.owner[m] == x && tops[m] == w;
      }
    }
    forall m | LockIn(p', m) ensures Listed(p', tops, m) {
      assert Listed(p, tops, m);
    }
  }

  /** The top waiter out of the owner's tree. */
  lemma TopDequeued(p: Pi, l: nat)
    requires Shape(p) && LockIn(p, l) && p.owner[l] != None && Top(p, l) != None
    ensures TaskIn(p, p.owner[l]) && TaskIn(p, Top(p, l))
    ensures PiTrees(DequeuePi(p, p.owner[l], Top(p, l)), TopsOf(p)[l := None])
  {
    DequeuePiKeeps(p, TopsOf(p), l);
  }

  /** And the lock without owner. */
  lemma Released(p: Pi, p': Pi, l: nat)
    requires Shape(p) && LockIn(p, l) && p.owner[l] != None && Top(p, l) != None
    requires TaskIn(p, p.owner[l]) && |p'.eff| == |p.eff|
    requires p' == SetOwner(DequeuePi(p, p.owner[l], Top(p, l)), l, None).(eff := p'.eff)
    ensures Shape(p')
  {
    hide Trees, PiTrees, Sorted, Remove;
    TreesAreSized(p);
    TopDequeued(p, l);
    var p1 := DequeuePi(p, p.owner[l], Top(p, l));
    var tops := TopsOf(p)[l := None];
    OwnerOfFree(p1, tops, l, None);
    var p2 := SetOwner(p1, l, None);
    assert Sizes(p2);
    TreesFrame(p, p2);
    TopIsBlocked(p2, l);
    assert TopsOf(p2) == tops[l := Top(p, l)];
    NotAnotherTopIn(p2, tops, l);
    UnownedTop(p2, tops, l, Top(p, l));
    ShapeFrame(p2, p');
  }

  /** Leaving the queue of an unowned lock, or not from the top. */
  lemma LeftBehind(p: Pi, l: nat, t: Task)
    requires Shape(p) && LockIn(p, l) && TaskIn(p, t) && p.blockedOn[t] == l && (p.owner[l] == None || Top(p, l) != t)
    ensures Shape(Unblock(p, l, t))
  {
    hide Trees, PiTrees, Sorted, Remove;
    TreesAreSized(p);
    var p' := Unblock(p, l, t);
    UnblockKeepsTrees(p, l, t);
    TreesAreSized(p');
    UnblockTops(p, l, t);
    PiTreesFrame(p, p', TopsOf(p), t);
    if p.owner[l] == None {
      if Top(p', l) != None {
        TopIsBlocked(p', l);
        NotAnotherTopIn(p', TopsOf(p), l);
      }
      UnownedTop(p', TopsOf(p), l, Top(p', l));
    }
  }

  /** The top waiter leaves an owned lock, and the next one takes its place at the owner. */
  lemma TopLeft(p: Pi, l: nat, t: Task)
    requires Shape(p) && LockIn(p, l) && TaskIn(p, t) && p.blockedOn[t] == l && p.owner[l] != None && Top(p, l) == t
    ensures var p1 := Unblock(p, l, t); var o := p.owner[l]; var p2 := DequeuePi(p1, o, t);
            && TaskIn(p, o) && Valid(p2.piWaiters[o], p2.piKey)
            && (Top(p1, l) == None ==> Shape(p2))
            && (Top(p1, l) != None ==> TaskIn(p, Top(p1, l)) && Shape(EnqueuePi(p2, o, Top(p1, l))))
            && (Top(p1, l) == None ==> Valid(p2.piWaiters[o], p2.eff))
            && (Top(p1, l) != None ==> Valid(EnqueuePi(p2, o, Top(p1, l)).piWaiters[o], p2.eff))
  {
    hide Trees, PiTrees, Sorted, Remove, Insert;
    TreesAreSized(p);
    var p1, o := Unblock(p, l, t), p.owner[l];
    UnblockKeepsTrees(p, l, t);
    TreesAreSized(p1);
    UnblockTops(p, l, t);
    PiTreesFrame(p, p1, TopsOf(p), t);
    DequeuePiKeeps(p1, TopsOf(p), l);
    var p2, tops := DequeuePi(p1, o, t), TopsOf(p)[l := None];
    TreesFrame(p1, p2);
    PiTreeValid(p2, tops, o);
    if Top(p1, l) == None {
      assert TopsOf(p2) == TopsOf(p1);
      assert tops == TopsOf(p1);
    } else {
      TopIsBlocked(p1, l);
      assert TopsOf(p1) == tops[l := Top(p1, l)];
      NotAnotherTopIn(p1, tops, l);
      EnqueuePiKeeps(p2, tops, l, Top(p1, l));
      var p3 := EnqueuePi(p2, o, Top(p1, l));
      TreesFrame(p2, p3);
      assert TopsOf(p3) == TopsOf(p1);
      PiTreeValid(p3, TopsOf(p3), o);
    }
  }

  /** The waiter that was at the top and no longer is gives way to the new top. */
  lemma DemotedIsStale(p: Pi, l: nat, t: Task)
    requires Shape(p) && LockIn(p, l) && TaskIn(p, t) && p.blockedOn[t] == l && p.owner[l] != None
    ensures var p1 := Requeue(p, l, t);
            && Trees(p1) && Top(p1, l) != None && TaskIn(p1, Top(p1, l)) && Top(p, l) != None && TaskIn(p, Top(p, l))
            && Stale(p1, l, Top(p, l), Top(p, l), Top(p1, l))
            && (Top(p1, l) != t && Top(p, l) != t ==> Shape(p1))
  {
    hide Sorted, Insert, Remove, PiTrees, Queued, Waits;
    RequeueKeepsPiTrees(p, l, t);
    RequeueKeepsTrees(p, l, t);
    TopIsBlocked(Requeue(p, l, t), l);
    TopWasThere(p, l, t);
    TopIsBlocked(p, l);
  }

  // ---------------------------------------------------------------------------
  // Keys when an owner changes
  // ---------------------------------------------------------------------------

  /** In a tree whose locks are ready every member carries the priority of its task. */
  lemma MemberIsFresh(p: Pi, but: int, o: nat, w: Task)
    requires Shape(p) && TaskIn(p, o) && w in p.piWaiters[o] && w != but
    requires (forall t :: TaskIn(p, t) && t != but ==> KeyFresh(p, t))
    requires (forall l :: LockIn(p, l) ==> PiKeyFresh(p, l))
    ensures TaskIn(p, w) && p.piKey[w] == p.treeKey[w] == p.eff[w]
  {
    assert PiTree(p, TopsOf(p), o) && Represents(p, TopsOf(p), o, w);
    var m :| LockIn(p, m) && p.owner[m] == o && TopsOf(p)[m] == w;
    TopIsBlocked(p, m);
    assert PiKeyFresh(p, m) && KeyFresh(p, w);
  }

  /** rt_mutex_adjust_prio makes a task inherit, when its waiters carry the priorities of their tasks. */
  lemma AdjustedInherits(p: Pi, o: nat)
    requires Sizes(p) && TaskIn(p, o) && Valid(p.piWaiters[o], p.eff)
    requires p.piWaiters[o] != [] ==>
               TaskIn(p, p.piWaiters[o][0]) && p.piKey[p.piWaiters[o][0]] == p.eff[p.piWaiters[o][0]]
    ensures AdjustPrio(p, o).eff == p.eff[o := Donated(p, o)]
  {
  }

  /** Owner `o` of `l` gives it up to the top waiter. */
  function GivenUp(p: Pi, l: nat): Pi
    requires LockIn(p, l) && |p.waiters| == |p.owner| && 0 <= p.owner[l] < |p.piWaiters| && Top(p, l) >= 0
  {
    SetOwner(DequeuePi(p, p.owner[l], Top(p, l)), l, None)
  }

  lemma GivenUpShape(p: Pi, l: nat)
    requires Shape(p) && LockIn(p, l) && p.owner[l] != None && Top(p, l) != None
    ensures TaskIn(p, p.owner[l]) && TaskIn(p, Top(p, l)) && Sizes(p) && Shape(GivenUp(p, l))
    ensures forall m :: LockIn(p, m) ==> Top(GivenUp(p, l), m) == Top(p, m)
  {
    hide Trees, PiTrees;
    TreesAreSized(p);
    TopDequeued(p, l);
    Released(p, GivenUp(p, l), l);
  }

  /** Giving a lock up keeps priority inheritance in full effect, when the owner runs. */
  lemma GivenUpIsFresh(p: Pi, l: nat)
    requires Boosted(p) && LockIn(p, l) && p.owner[l] != None && Top(p, l) != None
    ensures var o := p.owner[l];
            TaskIn(p, o) && Sizes(p) && Shape(GivenUp(p, l)) && Valid(GivenUp(p, l).piWaiters[o], p.eff)
    ensures var o := p.owner[l]; p.blockedOn[o] == None ==> Boosted(AdjustPrio(GivenUp(p, l), o))
  {
    hide Trees, PiTrees, Sorted, Remove, Donated;
    TreesAreSized(p);
    GivenUpShape(p, l);
    var o, p1 := p.owner[l], GivenUp(p, l);
    TreesAreSized(p1);
    PiTreeValid(p1, TopsOf(p1), o);
    forall t | TaskIn(p1, t) ensures KeyFresh(p1, t) { assert KeyFresh(p, t); }
    forall m | LockIn(p1, m) ensures PiKeyFresh(p1, m) { assert PiKeyFresh(p, m); }
    if p1.piWaiters[o] != [] {
      assert p1.piWaiters[o][0] in p1.piWaiters[o];
      MemberIsFresh(p1, None, o, p1.piWaiters[o][0]);
    }
    AdjustedInherits(p1, o);
    var p2 := AdjustPrio(p1, o);
    ShapeFrame(p1, p2);
    if p.blockedOn[o] == None {
      forall x | TaskIn(p2, x) ensures KeyFresh(p2, x) && Inherits(p2, x) {
        assert KeyFresh(p1, x) && Inherits(p, x);
        DonatedFrame(p1, p2, x, 0);
        if x != o { DonatedFrame(p, p1, x, 0); }
      }
      forall m | LockIn(p2, m) ensures PiKeyFresh(p2, m) { assert PiKeyFresh(p1, m); }
    }
  }

  /** The waiter that comes to the top when the queue has lost its top, or the taker of the lock,
      already carries its key in both trees. Nothing else gives it one before it enters a pi tree. */
  ghost predicate HeirIsFresh(p: Pi, l: nat)
    requires LockIn(p, l) && |p.waiters| == |p.owner|
  {
    var w := Top(p, l);
    w == None || (0 <= w < |p.piKey| && w < |p.treeKey| && p.piKey[w] == p.treeKey[w])
  }

  /** The queue of `l` without `t`, whether it waits there or not. */
  function Out(p: Pi, l: nat, t: Task): Pi
    requires Sizes(p) && LockIn(p, l) && TaskIn(p, t)
  {
    if p.blockedOn[t] == l then Unblock(p, l, t) else p
  }

  /** Who may take the lock is at least as urgent as the waiter it leaves at the top. */
  lemma TakerCovers(p: Pi, l: nat, t: Task, spinlocks: bool)
    requires Shape(p) && Keys(p, None) && LockIn(p, l) && TaskIn(p, t) && MayTake(p, l, t, spinlocks)
    requires p.blockedOn[t] == l || p.blockedOn[t] == None
    ensures var w := Top(Out(p, l, t), l);
            w != None ==> TaskIn(p, w) && w != t && p.blockedOn[w] == l && Covers(p.eff[t], p.treeKey[w])
  {
    hide Trees, PiTrees, Sorted, Remove;
    TreesAreSized(p);
    assert KeyFresh(p, t);
    var p1 := Out(p, l, t);
    if p.blockedOn[t] == l {
      UnblockKeepsTrees(p, l, t);
      TopWasThere(p, l, t);
    }
    var w := Top(p1, l);
    if w != None {
      TopIsBlocked(p1, l);
      TopCovers(p, l, w);
      var top := Top(p, l);
      KeysAreOrdered(p.eff[t], p.treeKey[top], p.treeKey[w]);
      KeysAreOrdered(p.treeKey[w], p.treeKey[top], p.eff[t]);
      KeysAreOrdered(p.treeKey[w], p.eff[t], p.treeKey[top]);
    }
  }

  /** The pi tree of the taker gets the heir; what the taker inherits does not change. */
  lemma HeirDonatesNothing(p: Pi, t: Task, w: Task)
    requires Sizes(p) && TaskIn(p, t) && TaskIn(p, w) && Valid(p.piWaiters[t], p.piKey)
    requires Inherits(p, t) && Covers(p.eff[t], p.piKey[w])
    ensures Sizes(EnqueuePi(p, t, w)) && Inherits(EnqueuePi(p, t, w), t)
  {
    var list := p.piWaiters[t];
    if list != [] {
      KeysAreOrdered(p.own[t], p.piKey[list[0]], p.piKey[w]);
      KeysAreOrdered(p.piKey[w], p.piKey[list[0]], p.own[t]);
      KeysAreOrdered(p.piKey[w], p.own[t], p.piKey[list[0]]);
    }
  }

  /** Taking a lock keeps priority inheritance in full effect exactly when the heir is fresh. */
  lemma TakenIsFreshIff(p: Pi, p': Pi, l: nat, t: Task, spinlocks: bool)
    requires Boosted(p) && LockIn(p, l) && TaskIn(p, t) && p.owner[l] == None && MayTake(p, l, t, spinlocks)
    requires p.blockedOn[t] == l || p.blockedOn[t] == None
    requires var p1 := Out(p, l, t);
             && Sizes(p1) && Valid(p1.piWaiters[t], p1.piKey) && (Top(p1, l) == None || TaskIn(p1, Top(p1, l)))
             && p' == SetOwner(if Top(p1, l) == None then p1 else EnqueuePi(p1, t, Top(p1, l)), l, t)
    requires Shape(p')
    ensures Boosted(p') <==> HeirIsFresh(Out(p, l, t), l)
  {
    hide Trees, PiTrees, Sorted, Remove, Insert, Donated, MayTake;
    TreesAreSized(p);
    TreesAreSized(p');
    var p1 := Out(p, l, t);
    var w := Top(p1, l);
    TakerCovers(p, l, t, spinlocks);
    assert forall m :: LockIn(p, m) ==> Top(p', m) == Top(p1, m) && (m != l ==> Top(p1, m) == Top(p, m));
    if Boosted(p') {
      assert PiKeyFresh(p', l);
    }
    if HeirIsFresh(p1, l) {
      forall m | LockIn(p', m) ensures PiKeyFresh(p', m) { assert m != l ==> PiKeyFresh(p, m); }
      forall x | TaskIn(p', x) ensures KeyFresh(p', x) && Inherits(p', x) {
        assert KeyFresh(p, x) && Inherits(p, x);
        DonatedFrame(p, p1, x, t);
        if x != t {
          DonatedFrame(p1, p', x, t);
        } else if w != None {
          HeirDonatesNothing(p1, t, w);
          DonatedFrame(EnqueuePi(p1, t, w), p', x, t);
        } else {
          DonatedFrame(p1, p', x, t);
        }
      }
    }
  }

  // ---------------------------------------------------------------------------
  // Deboosting
  // ---------------------------------------------------------------------------

  lemma SteppedFits(p: Pi, l: nat, t: Task)
    requires Shape(p) && LockIn(p, l) && TaskIn(p, t) && p.blockedOn[t] == l
    ensures Sizes(p) && Trees(Requeue(p, l, t)) && Sizes(Requeue(p, l, t))
    ensures var p1 := Requeue(p, l, t);
            && Top(p, l) != None && TaskIn(p1, Top(p, l)) && Top(p1, l) != None && TaskIn(p1, Top(p1, l))
            && (p.owner[l] != None ==> TaskIn(p1, p.owner[l]) && Valid(p1.piWaiters[p.owner[l]], p1.piKey))
  {
    hide Trees, PiTrees, Sorted, Insert, Remove;
    TreesAreSized(p);
    RequeueKeepsTrees(p, l, t);
    TreesAreSized(Requeue(p, l, t));
    RequeueKeepsPiTrees(p, l, t);
    TopIsBlocked(Requeue(p, l, t), l);
    TopWasThere(p, l, t);
    TopIsBlocked(p, l);
    if p.owner[l] != None {
      PiTreeValid(Requeue(p, l, t), TopsOf(Requeue(p, l, t))[l := Top(p, l)], p.owner[l]);
    }
  }

  /** Steps [7] to [11] of the walk, for the waiter of `t` in the queue of `l`. */
  ghost function Stepped(p: Pi, l: nat, t: Task): Pi
    requires Shape(p) && LockIn(p, l) && TaskIn(p, t) && p.blockedOn[t] == l
  {
    SteppedFits(p, l, t);
    var p1 := Requeue(p, l, t);
    if p.owner[l] == None || (Top(p1, l) != t && Top(p, l) != t) then p1
    else Replace(p1, p.owner[l], Top(p, l), Top(p1, l))
  }

  lemma SteppedKeepsShape(p: Pi, l: nat, t: Task)
    requires Shape(p) && LockIn(p, l) && TaskIn(p, t) && p.blockedOn[t] == l
    ensures var p' := Stepped(p, l, t);
            && Shape(p') && p'.owner == p.owner && p'.blockedOn == p.blockedOn && |p'.own| == |p.own|
            && Top(p', l) == Top(Requeue(p, l, t), l) && (p.owner[l] == None || TaskIn(p', p.owner[l]))
  {
    hide Trees, PiTrees, Sorted, Insert, Remove, Stale;
    SteppedFits(p, l, t);
    RequeueKeepsPiTrees(p, l, t);
    if p.owner[l] != None {
      DemotedIsStale(p, l, t);
      var p1 := Requeue(p, l, t);
      ReplaceKeepsShape(p1, l, Top(p, l), Top(p, l), Top(p1, l));
    }
  }

  /** Neither before nor after was `t` the top waiter: the owner is not concerned. */
  ghost predicate Aside(p: Pi, l: nat, t: Task)
    requires Shape(p) && LockIn(p, l) && TaskIn(p, t) && p.blockedOn[t] == l
  {
    p.owner[l] == None || (Top(Stepped(p, l, t), l) != t && Top(p, l) != t)
  }

  /** One step puts the keys right, or all but that of the owner's waiter. */
  lemma SteppedIsFresh(p: Pi, l: nat, t: Task)
    requires Shape(p) && LockIn(p, l) && TaskIn(p, t) && p.blockedOn[t] == l && Keys(p, t)
    ensures var p' := Stepped(p, l, t); if Aside(p, l, t) then Boosted(p') else Keys(p', p.owner[l])
  {
    hide Trees, PiTrees, Sorted, Insert, Remove, Swapping, Keys, Replace;
    SteppedFits(p, l, t);
    SteppedKeepsShape(p, l, t);
    RequeuedAny(p, t);
    var p1 := Requeue(p, l, t);
    if !Aside(p, l, t) {
      SwappedIsFresh(p1, l, Top(p, l), Top(p, l), Top(p1, l));
    }
  }

  /** Does lowering the priority of `task` reach everybody whom it concerns? The walk of `n` steps at
      most comes to `task` with `top` for the top waiter it came from, if any. It goes on only from a
      task whose top pi waiter that is, and not past the lock it came from or one that `self` owns;
      where it stops, the waiter of the task must already carry the task's priority. */
  ghost predicate Settles(p: Pi, task: Task, top: int, origLock: int, self: int, n: nat)
    requires Shape(p) && TaskIn(p, task)
    decreases n
  {
    var l := p.blockedOn[task];
    if KeyFresh(p, task) then true
    else if n == 0 || Stops(p, task, top, origLock, self) then false
    else Aside(p, l, task) ||
         (SteppedKeepsShape(p, l, task);
          Settles(Stepped(p, l, task), p.owner[l], Top(Stepped(p, l, task), l), origLock, self, n - 1))
  }

  /** The guards that end the walk at a blocked task whose waiter has another priority. */
  predicate Stops(p: Pi, task: Task, top: int, origLock: int, self: int)
    requires task < |p.blockedOn| == |p.piWaiters|
  {
    var l := p.blockedOn[task];
    || (top != None && (p.piWaiters[task] == [] || p.piWaiters[task][0] != top))
    || !LockIn(p, l) || l == origLock || p.owner[l] == self
  }

  lemma SettlesHere(p: Pi, task: Task, top: int, origLock: int, self: int, n: nat)
    requires Shape(p) && TaskIn(p, task) && Keys(p, task)
    requires Sizes(p) && (KeyFresh(p, task) || n == 0 || Stops(p, task, top, origLock, self))
    ensures Boosted(p) <==> Settles(p, task, top, origLock, self, n)
  {
    hide Trees, PiTrees;
  }

  lemma SettlesOn(p: Pi, task: Task, top: int, origLock: int, self: int, n: nat)
    requires Shape(p) && TaskIn(p, task) && Keys(p, task) && Sizes(p) && n > 0
    requires !KeyFresh(p, task) && !Stops(p, task, top, origLock, self)
    ensures var l := p.blockedOn[task]; LockIn(p, l)
    ensures var l := p.blockedOn[task]; var p' := Stepped(p, l, task);
            && Shape(p')
            && if Aside(p, l, task) then Boosted(p') && Settles(p, task, top, origLock, self, n)
               else Keys(p', p.owner[l]) && TaskIn(p', p.owner[l])
                    && (Settles(p, task, top, origLock, self, n) <==>
                        Settles(p', p.owner[l], Top(p', l), origLock, self, n - 1))
  {
    hide Trees, PiTrees, Keys, Stepped, Stops;
    var l := p.blockedOn[task];
    SteppedKeepsShape(p, l, task);
    SteppedIsFresh(p, l, task);
  }

  /** How the walk decides at `task`: `equal` is its comparison of the two priorities. */
  lemma SettlesNow(p: Pi, task: Task, top: int, origLock: int, self: int, n: nat)
    requires Shape(p) && TaskIn(p, task) && Keys(p, task)
    ensures |p.blockedOn| == |p.piWaiters| == |p.own| == |p.treeKey| == |p.eff|
    ensures var l, equal := p.blockedOn[task], Equal(p.treeKey[task], p.eff[task]);
            if l == None || equal || n == 0 || Stops(p, task, top, origLock, self)
            then Boosted(p) <==> Settles(p, task, top, origLock, self, n)
            else
              && LockIn(p, l) && Shape(Stepped(p, l, task))
              && var p' := Stepped(p, l, task);
                 if Aside(p, l, task) then
                   Boosted(p') && Settles(p, task, top, origLock, self, n)
                 else Keys(p', p.owner[l]) && TaskIn(p', p.owner[l])
                      && (Settles(p, task, top, origLock, self, n) <==>
                          Settles(p', p.owner[l], Top(p', l), origLock, self, n - 1))
  {
    hide Trees, PiTrees, Stops, Settles, Stepped, Aside, Boosted;
    KeysAreOrdered(p.treeKey[task], p.eff[task], p.eff[task]);
    if KeyFresh(p, task) || n == 0 || Stops(p, task, top, origLock, self) {
      SettlesHere(p, task, top, origLock, self, n);
    } else {
      SettlesOn(p, task, top, origLock, self, n);
    }
  }

  /** A walk that lowers priorities from `first` on has come to `task`, with `n` steps left. */
  ghost predicate Dropping(p0: Pi, first: Task, p: Pi, task: Task, top: int, origLock: int, self: int, max: nat,
                           n: int) {
    && Shape(p0) && TaskIn(p0, first) && Shape(p) && TaskIn(p, task) && Keys(p, task) && n >= 0
    && (Settles(p0, first, None, origLock, self, max) <==> Settles(p, task, top, origLock, self, n))
  }

  lemma DropStarts(p: Pi, first: Task, origLock: int, self: int, max: nat)
    requires Shape(p) && TaskIn(p, first) && Keys(p, first)
    ensures Dropping(p, first, p, first, None, origLock, self, max, max)
  {
  }

  /** Where it stops, everything is right exactly when the lowering settles. */
  lemma DropEnds(p0: Pi, first: Task, p: Pi, task: Task, top: int, origLock: int, self: int, max: nat, n: nat)
    requires Dropping(p0, first, p, task, top, origLock, self, max, n)
    requires |p.blockedOn| == |p.piWaiters| == |p.own| == |p.treeKey| == |p.eff|
    requires p.blockedOn[task] == None || Equal(p.treeKey[task], p.eff[task]) || n == 0
             || Stops(p, task, top, origLock, self)
    ensures Shape(p0) && TaskIn(p0, first)
    ensures Boosted(p) <==> Settles(p0, first, None, origLock, self, max)
  {
    hide Settles, Shape, Keys, Boosted;
    SettlesNow(p, task, top, origLock, self, n);
  }

  lemma DropGoesOn(p0: Pi, first: Task, p: Pi, task: Task, top: int, origLock: int, self: int, max: nat, n: nat)
    requires Dropping(p0, first, p, task, top, origLock, self, max, n) && n > 0
    requires |p.blockedOn| == |p.piWaiters| == |p.own| == |p.treeKey| == |p.eff|
    requires p.blockedOn[task] != None && !Equal(p.treeKey[task], p.eff[task]) && !Stops(p, task, top, origLock, self)
    ensures Shape(p) && Shape(p0) && TaskIn(p0, first)
    ensures var l := p.blockedOn[task]; LockIn(p, l)
    ensures var l := p.blockedOn[task]; var p' := Stepped(p, l, task);
            if Aside(p, l, task) then Boosted(p') && Settles(p0, first, None, origLock, self, max)
            else TaskIn(p', p.owner[l])
                 && Dropping(p0, first, p', p.owner[l], Top(p', l), origLock, self, max, n - 1)
  {
    hide Settles, Shape, Keys, Boosted, Stepped, Aside, Stops;
    SettlesNow(p, task, top, origLock, self, n);
  }

  lemma DropDecides(p0: Pi, first: Task, p: Pi, task: Task, top: int, origLock: int, self: int, max: nat, n: nat)
    requires Dropping(p0, first, p, task, top, origLock, self, max, n)
    requires |p.blockedOn| == |p.piWaiters| == |p.own| == |p.treeKey| == |p.eff|
    ensures Shape(p) && Shape(p0) && TaskIn(p0, first)
    ensures var l := p.blockedOn[task];
            if l == None || Equal(p.treeKey[task], p.eff[task]) || n == 0 || l == origLock
               || (top != None && (p.piWaiters[task] == [] || p.piWaiters[task][0] != top))
               || !LockIn(p, l) || p.owner[l] == self
            then Boosted(p) <==> Settles(p0, first, None, origLock, self, max)
            else var p' := Stepped(p, l, task);
                 if Aside(p, l, task) then Boosted(p') && Settles(p0, first, None, origLock, self, max)
                 else TaskIn(p', p.owner[l])
                      && Dropping(p0, first, p', p.owner[l], Top(p', l), origLock, self, max, n - 1)
  {
    hide Settles, Shape, Keys, Boosted, Stepped, Aside;
    var l := p.blockedOn[task];
    if l == None || Equal(p.treeKey[task], p.eff[task]) || n == 0 || Stops(p, task, top, origLock, self) {
      DropEnds(p0, first, p, task, top, origLock, self, max, n);
    } else {
      DropGoesOn(p0, first, p, task, top, origLock, self, max, n);
    }
  }

  /** The keys of who waits for `l`, and their order. */
  ghost predicate QueueKept(p: Pi, p': Pi, l: int) {
    && Sizes(p) && Sizes(p') && |p'.own| == |p.own| && p'.owner == p.owner && p'.blockedOn == p.blockedOn
    && (LockIn(p, l) ==> p'.waiters[l] == p.waiters[l])
    && forall x :: TaskIn(p, x) && p.blockedOn[x] == l ==> p'.treeKey[x] == p.treeKey[x] && p'.piKey[x] == p.piKey[x]
  }

  lemma QueueKeptSame(p: Pi, l: int)
    requires Shape(p)
    ensures QueueKept(p, p, l)
  {
  }

  lemma QueueKeptTwice(p: Pi, p': Pi, p'': Pi, l: int)
    requires QueueKept(p, p', l) && QueueKept(p', p'', l)
    ensures QueueKept(p, p'', l)
  {
  }

  lemma SteppedElsewhere(p: Pi, l: nat, t: Task, m: int)
    requires Shape(p) && LockIn(p, l) && TaskIn(p, t) && p.blockedOn[t] == l && m != l
    ensures QueueKept(p, Stepped(p, l, t), m)
  {
    hide PiTrees, Sorted, Insert, Remove;
    SteppedFits(p, l, t);
    SteppedKeepsShape(p, l, t);
    TopIsBlocked(Requeue(p, l, t), l);
  }

  // ---------------------------------------------------------------------------
  // Giving up waiting
  // ---------------------------------------------------------------------------

  /** The owner of `l` when its top waiter `t` has left, and the heir, if any, has come in. */
  ghost function Left(p: Pi, l: nat, t: Task): Pi
    requires Shape(p) && LockIn(p, l) && TaskIn(p, t) && p.blockedOn[t] == l && p.owner[l] != None && Top(p, l) == t
  {
    TreesAreSized(p);
    TopLeft(p, l, t);
    var p1, o := Unblock(p, l, t), p.owner[l];
    var p2 := DequeuePi(p1, o, t);
    AdjustPrio(if Top(p1, l) == None then p2 else EnqueuePi(p2, o, Top(p1, l)), o)
  }

  lemma LeftShape(p: Pi, l: nat, t: Task)
    requires Shape(p) && LockIn(p, l) && TaskIn(p, t) && p.blockedOn[t] == l && p.owner[l] != None && Top(p, l) == t
    ensures var p' := Left(p, l, t);
            && Sizes(p) && Shape(p') && TaskIn(p', p.owner[l]) && |p'.own| == |p.own| && p'.owner == p.owner
            && p'.blockedOn == p.blockedOn[t := None] && p'.waiters == Unblock(p, l, t).waiters
            && p'.treeKey == p.treeKey && p'.piKey == p.piKey
  {
    hide Trees, PiTrees, Sorted, Insert, Remove;
    TreesAreSized(p);
    TopLeft(p, l, t);
    var p1, o := Unblock(p, l, t), p.owner[l];
    var p2 := DequeuePi(p1, o, t);
    var p3 := if Top(p1, l) == None then p2 else EnqueuePi(p2, o, Top(p1, l));
    ShapeFrame(p3, AdjustPrio(p3, o));
  }

  /** Before the owner's priority follows. */
  ghost function HandedOn(p: Pi, l: nat, t: Task): (p': Pi)
    requires Shape(p) && LockIn(p, l) && TaskIn(p, t) && p.blockedOn[t] == l && p.owner[l] != None && Top(p, l) == t
    ensures Shape(p') && Sizes(p') && TaskIn(p', p.owner[l]) && |p'.own| == |p.own| && p'.owner == p.owner
    ensures Valid(p'.piWaiters[p.owner[l]], p'.eff) && Left(p, l, t) == AdjustPrio(p', p.owner[l])
  {
    hide Trees, PiTrees, Sorted, Insert, Remove;
    TreesAreSized(p);
    TopLeft(p, l, t);
    var p1, o := Unblock(p, l, t), p.owner[l];
    var p2 := DequeuePi(p1, o, t);
    var p' := if Top(p1, l) == None then p2 else EnqueuePi(p2, o, Top(p1, l));
    TreesAreSized(p');
    p'
  }

  lemma HandedOnIsFresh(p: Pi, l: nat, t: Task)
    requires Boosted(p) && LockIn(p, l) && TaskIn(p, t) && p.blockedOn[t] == l && p.owner[l] != None && Top(p, l) == t
    requires Sizes(p) && HeirIsFresh(Unblock(p, l, t), l)
    ensures var p' := HandedOn(p, l, t);
            && (forall x :: TaskIn(p', x) ==> KeyFresh(p', x)) && (forall m :: LockIn(p', m) ==> PiKeyFresh(p', m))
            && (forall x :: TaskIn(p', x) && x != p.owner[l] ==> Inherits(p', x))
  {
    hide Trees, PiTrees, Sorted, Insert, Remove, Donated, Left;
    TopLeft(p, l, t);
    var p' := HandedOn(p, l, t);
    assert forall m :: LockIn(p, m) && m != l ==> Top(p', m) == Top(p, m);
    forall m | LockIn(p', m) ensures PiKeyFresh(p', m) { assert PiKeyFresh(p, m); }
    forall x | TaskIn(p', x) ensures KeyFresh(p', x) && (x != p.owner[l] ==> Inherits(p', x)) {
      assert KeyFresh(p, x) && Inherits(p, x);
      if x != p.owner[l] { DonatedFrame(p, p', x, t); }
    }
  }

  /** With a fresh heir, or none, all keys are right but that of the owner's own waiter. */
  lemma LeftIsFresh(p: Pi, l: nat, t: Task)
    requires Boosted(p) && LockIn(p, l) && TaskIn(p, t) && p.blockedOn[t] == l && p.owner[l] != None && Top(p, l) == t
    requires Sizes(p) && HeirIsFresh(Unblock(p, l, t), l)
    ensures Keys(Left(p, l, t), p.owner[l])
  {
    hide Trees, PiTrees, Donated, Left, HandedOn, Shape, HeirIsFresh;
    BoostedHasShape(p);
    HandedOnIsFresh(p, l, t);
    var p', o := HandedOn(p, l, t), p.owner[l];
    if p'.piWaiters[o] != [] {
      assert p'.piWaiters[o][0] in p'.piWaiters[o];
      MemberIsFresh(p', None, o, p'.piWaiters[o][0]);
    }
    AdjustedInherits(p', o);
    var p2 := AdjustPrio(p', o);
    forall x | TaskIn(p2, x) ensures Inherits(p2, x) && (x != o ==> KeyFresh(p2, x)) {
      assert KeyFresh(p', x);
      DonatedFrame(p', p2, x, t);
    }
    forall m | LockIn(p2, m) ensures PiKeyFresh(p2, m) { assert PiKeyFresh(p', m); }
  }

  /** Leaving a queue keeps priority inheritance in full effect exactly when this holds: `t` is not
      what the owner inherits from, or the heir is fresh and the deboosting that follows settles. */
  ghost predicate LeavesWell(p: Pi, l: nat, t: Task, max: nat)
    requires Shape(p) && LockIn(p, l) && TaskIn(p, t) && p.blockedOn[t] == l
  {
    || p.owner[l] == None || Top(p, l) != t
    || (LeftShape(p, l, t); HeirIsFresh(Unblock(p, l, t), l) && Settles(Left(p, l, t), p.owner[l], None, l, t, max))
  }

  lemma LeftBehindIsFresh(p: Pi, l: nat, t: Task)
    requires Boosted(p) && LockIn(p, l) && TaskIn(p, t) && p.blockedOn[t] == l && (p.owner[l] == None || Top(p, l) != t)
    ensures Sizes(p) && Boosted(Unblock(p, l, t))
  {
    hide Trees, PiTrees, Sorted, Remove, Donated;
    TreesAreSized(p);
    LeftBehind(p, l, t);
    UnblockKeepsTrees(p, l, t);
    var p' := Unblock(p, l, t);
    assert forall m :: LockIn(p, m) && m != l ==> Top(p', m) == Top(p, m);
    forall x | TaskIn(p', x) ensures KeyFresh(p', x) && Inherits(p', x) {
      assert KeyFresh(p, x) && Inherits(p, x);
      DonatedFrame(p, p', x, t);
    }
    forall m | LockIn(p', m) ensures PiKeyFresh(p', m) { assert PiKeyFresh(p, m); }
  }

  lemma BoostedHasShape(p: Pi)
    requires Boosted(p)
    ensures Shape(p)
  {
  }

  /** The heir of a taken lock is fresh. */
  ghost predicate TakesWell(p: Pi, l: nat, t: Task)
    requires Shape(p) && LockIn(p, l) && TaskIn(p, t)
  {
    TreesAreSized(p);
    HeirIsFresh(Out(p, l, t), l)
  }

  /** A stale heir stays stale as long as nobody touches its queue. */
  lemma StaleHeirStays(p: Pi, p2: Pi, p': Pi, l: nat, t: Task)
    requires Shape(p) && LockIn(p, l) && TaskIn(p, t) && p.blockedOn[t] == l && p.owner[l] != None && Top(p, l) == t
    requires p2 == Left(p, l, t) && QueueKept(p2, p', l) && Boosted(p')
    ensures Sizes(p) && HeirIsFresh(Unblock(p, l, t), l)
  {
    hide PiTrees, Sorted, Remove;
    TreesAreSized(p);
    LeftShape(p, l, t);
    var w := Top(Unblock(p, l, t), l);
    if w != None {
      UnblockKeepsTrees(p, l, t);
      TopIsBlocked(Unblock(p, l, t), l);
      assert Top(p', l) == w;
      assert PiKeyFresh(p', l);
    }
  }

  /** The owner is not blocked: there is nothing to deboost further on. */
  lemma LeftAlone(p: Pi, l: nat, t: Task, max: nat)
    requires Boosted(p) && LockIn(p, l) && TaskIn(p, t) && p.blockedOn[t] == l && p.owner[l] != None && Top(p, l) == t
    requires TaskIn(p, p.owner[l]) && p.owner[l] < |Left(p, l, t).blockedOn|
    requires Left(p, l, t).blockedOn[p.owner[l]] == None
    ensures Boosted(Left(p, l, t)) <==> LeavesWell(p, l, t, max)
  {
    hide Trees, PiTrees, Left, Shape;
    BoostedHasShape(p);
    LeftShape(p, l, t);
    var p2 := Left(p, l, t);
    QueueKeptSame(p2, l);
    if Boosted(p2) {
      StaleHeirStays(p, p2, p2, l, t);
    }
    if HeirIsFresh(Unblock(p, l, t), l) {
      LeftIsFresh(p, l, t);
    }
  }

  /** The owner is blocked, and the walk has gone on from it. */
  lemma LeftBlocked(p: Pi, p2: Pi, p': Pi, l: nat, t: Task, max: nat)
    requires Boosted(p) && LockIn(p, l) && TaskIn(p, t) && p.blockedOn[t] == l && p.owner[l] != None && Top(p, l) == t
    requires p2 == Left(p, l, t) && Shape(p2) && TaskIn(p2, p.owner[l]) && QueueKept(p2, p', l)
    requires Keys(p2, p.owner[l]) ==> (Boosted(p') <==> Settles(p2, p.owner[l], None, l, t, max))
    ensures Boosted(p') <==> LeavesWell(p, l, t, max)
  {
    hide Trees, PiTrees, Left, Shape, Settles, Keys, Boosted, QueueKept, HeirIsFresh;
    BoostedHasShape(p);
    LeftShape(p, l, t);
    if Boosted(p') {
      StaleHeirStays(p, p2, p', l, t);
    }
    if HeirIsFresh(Unblock(p, l, t), l) {
      LeftIsFresh(p, l, t);
    }
  }

  // ---------------------------------------------------------------------------
  // Chains on which lowering always settles
  // ---------------------------------------------------------------------------

  /** The chain of owners from `task` on ends within `n` locks, comes neither to `origLock` nor to a
      lock of `self`, and no owner on it has more than one pi waiter. */
  predicate Single(p: Pi, task: int, origLock: int, self: int, n: nat)
    decreases n
  {
    0 <= task < |p.blockedOn| &&
    var l := p.blockedOn[task];
    l == None ||
    (n > 0 && l != origLock && LockIn(p, l) && p.owner[l] != self
     && (p.owner[l] == None ||
         (0 <= p.owner[l] < |p.piWaiters| && |p.piWaiters[p.owner[l]]| <= 1
           && Single(p, p.owner[l], origLock, self, n - 1))))
  }

  /** It depends on owners, blocked tasks and the size of pi trees only, and not on what `self` waits for. */
  lemma {:induction false} SingleFrame(p: Pi, p': Pi, task: int, origLock: int, self: int, n: nat)
    requires Single(p, task, origLock, self, n) && task != self && self >= 0
    requires p'.owner == p.owner && |p'.blockedOn| == |p.blockedOn| && |p'.piWaiters| == |p.piWaiters|
    requires forall x :: 0 <= x < |p.blockedOn| && x != self ==> p'.blockedOn[x] == p.blockedOn[x]
    requires forall x :: 0 <= x < |p.piWaiters| ==> |p'.piWaiters[x]| <= |p.piWaiters[x]|
    ensures Single(p', task, origLock, self, n)
    decreases n
  {
    var l := p.blockedOn[task];
    if l != None && p.owner[l] != None {
      SingleFrame(p, p', p.owner[l], origLock, self, n - 1);
    }
  }

  lemma {:induction false} RemoveSize(list: seq<Task>, t: Task)
    ensures |Remove(list, t)| == |list| - if t in list then 1 else 0
  {
    if list != [] && list[0] != t {
      assert list == [list[0]] + list[1..];
      RemoveSize(list[1..], t);
    }
  }

  /** A round leaves no tree larger than it was. */
  lemma SteppedSizes(p: Pi, l: nat, t: Task)
    requires Shape(p) && LockIn(p, l) && TaskIn(p, t) && p.blockedOn[t] == l
    ensures var p' := Stepped(p, l, t);
            |p'.piWaiters| == |p.piWaiters|
            && forall x :: 0 <= x < |p.piWaiters| ==> |p'.piWaiters[x]| <= |p.piWaiters[x]|
  {
    hide Trees, PiTrees, Sorted, Insert, Remove;
    SteppedFits(p, l, t);
    TreesAreSized(p);
    if p.owner[l] != None {
      var o := p.owner[l];
      StandsFor(p, l);
      RemoveSize(p.piWaiters[o], Top(p, l));
    }
  }

  /** The top waiter of an owned lock is in the owner's tree. */
  lemma StandsFor(p: Pi, l: nat)
    requires Shape(p) && LockIn(p, l) && p.owner[l] != None && Top(p, l) != None
    ensures 0 <= p.owner[l] < |p.piWaiters| && Top(p, l) in p.piWaiters[p.owner[l]]
  {
    assert Listed(p, TopsOf(p), l);
  }

  /** Along such a chain lowering settles, whatever the keys are. */
  lemma {:induction false} SingleSettles(p: Pi, task: Task, top: int, origLock: int, self: int, n: nat)
    requires Shape(p) && TaskIn(p, task) && Single(p, task, origLock, self, n) && task != self && self >= 0
    requires top == None || (task < |p.piWaiters| && p.piWaiters[task] == [top])
    ensures Settles(p, task, top, origLock, self, n)
    decreases n
  {
    hide Trees, PiTrees, Stepped, Aside;
    TreesAreSized(p);
    var l := p.blockedOn[task];
    if !KeyFresh(p, task) {
      SteppedKeepsShape(p, l, task);
      if !Aside(p, l, task) {
        var p', o := Stepped(p, l, task), p.owner[l];
        OwnedUnlessAside(p, l, task);
        SteppedSizes(p, l, task);
        SingleFrame(p, p', o, origLock, self, n - 1);
        TreesAreSized(p');
        StandsFor(p', l);
        SingleSettles(p', o, Top(p', l), origLock, self, n - 1);
      }
    }
  }

  lemma OwnedUnlessAside(p: Pi, l: nat, t: Task)
    requires Shape(p) && LockIn(p, l) && TaskIn(p, t) && p.blockedOn[t] == l && !Aside(p, l, t)
    ensures p.owner[l] != None && Top(Stepped(p, l, t), l) != None
  {
    hide Trees, PiTrees, Stepped;
    SteppedKeepsShape(p, l, t);
    SteppedFits(p, l, t);
  }

  /** So the top waiter leaves without loss when its heir is fresh and the chain of owners is single. */
  lemma SingleLeavesWell(p: Pi, l: nat, t: Task, max: nat)
    requires Shape(p) && LockIn(p, l) && TaskIn(p, t) && p.blockedOn[t] == l
    requires Sizes(p) && HeirIsFresh(Unblock(p, l, t), l)
    requires p.owner[l] == None || Single(p, p.owner[l], l, t, max)
    ensures LeavesWell(p, l, t, max)
  {
    hide Trees, PiTrees, Settles, HeirIsFresh, Left;
    if p.owner[l] != None && Top(p, l) == t {
      LeftShape(p, l, t);
      LeftSizes(p, l, t);
      SingleFrame(p, Left(p, l, t), p.owner[l], l, t, max);
      SingleSettles(Left(p, l, t), p.owner[l], None, l, t, max);
    }
  }

  lemma LeftSizes(p: Pi, l: nat, t: Task)
    requires Shape(p) && LockIn(p, l) && TaskIn(p, t) && p.blockedOn[t] == l && p.owner[l] != None && Top(p, l) == t
    ensures var p' := Left(p, l, t);
            |p'.piWaiters| == |p.piWaiters|
            && forall x :: 0 <= x < |p.piWaiters| ==> |p'.piWaiters[x]| <= |p.piWaiters[x]|
  {
    hide Trees, PiTrees, Sorted, Insert, Remove;
    TreesAreSized(p);
    StandsFor(p, l);
    RemoveSize(p.piWaiters[p.owner[l]], t);
  }

  // ---------------------------------------------------------------------------
  // States in which it goes wrong
  // ---------------------------------------------------------------------------

  function Prio(prio: nat): Key { Node(prio, 0) }

  /** Task 0 owns lock 0, for which tasks 1 and 2 wait; task 2 owns lock 1, for which task 3 has just
      begun to wait. It has boosted task 2 from 20 to 15; the waiter of task 2 is next. */
  function BoostArrives(): Pi {
    Pi([0, 2], [[1, 2], [3]], [None, 0, 0, 1], [[1], [], [3], []],
       [Prio(30), Prio(10), Prio(20), Prio(15)], [Prio(10), Prio(10), Prio(15), Prio(15)],
       [Prio(30), Prio(10), Prio(20), Prio(15)], [Prio(30), Prio(10), Prio(20), Prio(15)])
  }

  lemma BoostArrivesTrees()
    ensures Trees(BoostArrives())
  {
    var p := BoostArrives();
    assert p.waiters[0][0] == 1 && p.waiters[0][1] == 2 && p.waiters[1][0] == 3;
    assert Queued(p, 0) && Queued(p, 1);
    assert Waits(p, 0) && Waits(p, 1) && Waits(p, 2) && Waits(p, 3);
  }

  lemma BoostArrivesTops()
    ensures TopsOf(BoostArrives()) == [1, 3]
  {
  }

  lemma BoostArrivesPiTree(o: nat)
    requires TaskIn(BoostArrives(), o)
    ensures Sizes(BoostArrives()) && PiTree(BoostArrives(), [1, 3], o)
  {
    var p, tops := BoostArrives(), [1, 3];
    assert LockIn(p, 0) && p.owner[0] == 0 && tops[0] == 1 && LockIn(p, 1) && p.owner[1] == 2 && tops[1] == 3;
    assert Represents(p, tops, 0, 1) && Represents(p, tops, 2, 3);
  }

  lemma BoostArrivesHasShape()
    ensures Shape(BoostArrives())
  {
    hide Trees, PiTree, Sorted;
    var p, tops := BoostArrives(), [1, 3];
    BoostArrivesTrees();
    BoostArrivesTops();
    forall o | TaskIn(p, o) ensures PiTree(p, tops, o) {
      BoostArrivesPiTree(o);
    }
    assert p.piWaiters[0][0] == 1 && p.piWaiters[2][0] == 3;
    assert Listed(p, tops, 0) && Listed(p, tops, 1);
  }

  lemma BoostArrivesKeys()
    requires Shape(BoostArrives())
    ensures Keys(BoostArrives(), 2) && Behind(BoostArrives(), 2)
  {
    hide Trees, PiTrees;
    var p := BoostArrives();
    assert Top(p, 0) == 1 && Top(p, 1) == 3;
    assert p.piWaiters[0][0] == 1 && p.piWaiters[2][0] == 3;
  }

  /** The walk has requeued task 2 behind task 1. */
  function BoostDone(): Pi {
    BoostArrives().(treeKey := [Prio(30), Prio(10), Prio(15), Prio(15)])
  }

  lemma BoostGoesThrough()
    ensures Shape(BoostArrives()) && Stepped(BoostArrives(), 0, 2) == BoostDone() && Boosted(BoostDone())
  {
    hide Trees, PiTrees, Keys;
    var p := BoostArrives();
    BoostArrivesHasShape();
    BoostArrivesKeys();
    SteppedIsFresh(p, 0, 2);
    assert Remove([1, 2], 2) == [1] + Remove([2], 2) == [1];
    assert Insert([1], BoostDone().treeKey, 2) == [1] + Insert([], BoostDone().treeKey, 2) == [1, 2];
    assert Requeue(p, 0, 2) == BoostDone();
  }

  /** Priority inheritance is in full effect then. But the key that task 2's waiter would have in a pi
      tree is still the old one: when task 1 gives up, or takes the lock that task 0 gives up, task 2
      comes to the top with it. */
  lemma HeirGoesStale(max: nat, spinlocks: bool)
    ensures Boosted(BoostDone()) && BoostDone().blockedOn[1] == 0 && !LeavesWell(BoostDone(), 0, 1, max)
    ensures Shape(GivenUp(BoostDone(), 0)) && Sizes(GivenUp(BoostDone(), 0))
    ensures var p := GivenUp(BoostDone(), 0);
            && Valid(p.piWaiters[0], p.eff)
            && var p' := AdjustPrio(p, 0);
               Boosted(p') && p'.owner[0] == None && MayTake(p', 0, 1, spinlocks) && !TakesWell(p', 0, 1)
  {
    hide Trees, PiTrees, Keys, Sorted;
    var p := BoostDone();
    BoostGoesThrough();
    assert Top(p, 0) == 1 && Remove(p.waiters[0], 1) == [2];
    TreesAreSized(p);
    GivenUpIsFresh(p, 0);
    TreesAreSized(GivenUp(p, 0));
  }

  /** Task 3 waits for lock 0 of task 0, which waits for lock 1 of task 1, which waits for lock 2 of
      task 2: all run at its priority. Task 1 also owns lock 3, for which task 4 waits. */
  function TwoBoost(): Pi {
    var keys := [Prio(10), Prio(10), Prio(10), Prio(10), Prio(15)];
    Pi([0, 1, 2, 1], [[3], [0], [1], [4]], [1, 2, None, 0, 3], [[3], [0, 4], [1], [], []],
       [Prio(30), Prio(30), Prio(30), Prio(10), Prio(15)], keys, keys, keys)
  }

  lemma TwoBoostQueued(l: nat)
    requires LockIn(TwoBoost(), l)
    ensures Sizes(TwoBoost()) && Queued(TwoBoost(), l)
  {
  }

  lemma TwoBoostTrees()
    ensures Trees(TwoBoost())
  {
    hide Queued;
    var p := TwoBoost();
    assert p.waiters[0][0] == 3 && p.waiters[1][0] == 0 && p.waiters[2][0] == 1 && p.waiters[3][0] == 4;
    forall l | LockIn(p, l) ensures Queued(p, l) {
      TwoBoostQueued(l);
    }
  }

  lemma TwoBoostTops()
    ensures TopsOf(TwoBoost()) == [3, 0, 1, 4]
  {
  }

  lemma TwoBoostPiTree(o: nat)
    requires TaskIn(TwoBoost(), o)
    ensures Sizes(TwoBoost()) && PiTree(TwoBoost(), [3, 0, 1, 4], o)
  {
    var p, tops := TwoBoost(), [3, 0, 1, 4];
    assert LockIn(p, 0) && p.owner[0] == 0 && tops[0] == 3 && LockIn(p, 1) && p.owner[1] == 1 && tops[1] == 0;
    assert LockIn(p, 2) && p.owner[2] == 2 && tops[2] == 1 && LockIn(p, 3) && p.owner[3] == 1 && tops[3] == 4;
    forall w | w in p.piWaiters[o] ensures Represents(p, tops, o, w) {
      assert w == 3 || w == 0 || w == 4 || w == 1;
    }
  }

  lemma TwoBoostHasShape()
    ensures Shape(TwoBoost())
  {
    hide Trees, PiTree, Sorted, Queued, Waits;
    var p, tops := TwoBoost(), [3, 0, 1, 4];
    TwoBoostTrees();
    TwoBoostTops();
    forall o | TaskIn(p, o) ensures PiTree(p, tops, o) {
      TwoBoostPiTree(o);
    }
    assert p.piWaiters[0][0] == 3 && p.piWaiters[1][0] == 0 && p.piWaiters[1][1] == 4 && p.piWaiters[2][0] == 1;
    assert Listed(p, tops, 0) && Listed(p, tops, 1) && Listed(p, tops, 2) && Listed(p, tops, 3);
  }

  lemma TwoBoostIsBoosted()
    ensures Boosted(TwoBoost())
  {
    hide Trees, PiTrees;
    var p := TwoBoost();
    TwoBoostHasShape();
    assert Top(p, 0) == 3 && Top(p, 1) == 0 && Top(p, 2) == 1 && Top(p, 3) == 4;
    assert p.piWaiters[0][0] == 3 && p.piWaiters[1][0] == 0 && p.piWaiters[2][0] == 1;
  }

  /** Task 3 has left, and task 0 is back to its own priority; its waiter is next. */
  function OneLeft(): Pi {
    Pi([0, 1, 2, 1], [[], [0], [1], [4]], [1, 2, None, None, 3], [[], [0, 4], [1], [], []],
       TwoBoost().own, TwoBoost().eff[0 := Prio(30)], TwoBoost().treeKey, TwoBoost().piKey)
  }

  lemma OneHasLeft()
    ensures Shape(TwoBoost()) && Left(TwoBoost(), 0, 3) == OneLeft() && Shape(OneLeft())
  {
    hide Trees, PiTrees;
    var p := TwoBoost();
    TwoBoostHasShape();
    LeftShape(p, 0, 3);
    assert Remove([3], 3) == [];
    assert Unblock(p, 0, 3).waiters == OneLeft().waiters;
    assert Left(p, 0, 3) == OneLeft();
  }

  /** Task 1 falls to the priority of task 4. */
  lemma OneStepDown()
    requires Shape(OneLeft())
    ensures var p := Stepped(OneLeft(), 1, 0);
            && !Aside(OneLeft(), 1, 0) && Top(p, 1) == 0
            && |p.piWaiters| == |p.blockedOn| == |p.eff| == |p.treeKey| == 5
            && p.blockedOn[1] == 2 && p.piWaiters[1] == [4, 0] && p.eff[1] == Prio(15) && p.treeKey[1] == Prio(10)
  {
    hide Trees, PiTrees;
    var p := OneLeft();
    SteppedFits(p, 1, 0);
    var p1 := Requeue(p, 1, 0);
    assert Remove([0], 0) == [];
    assert p1 == p.(treeKey := p.treeKey[0 := Prio(30)]);
    assert Remove([0, 4], 0) == [4];
    var keys := p.piKey[0 := Prio(30)];
    assert Insert([4], keys, 0) == [4] + Insert([], keys, 0) == [4, 0];
    assert Replace(p1, 1, 0, 0).piWaiters[1] == [4, 0];
  }

  /** Lowering stops too early: the walk comes to task 1, finds that not task 0 but task 4 is its top
      pi waiter now, and leaves. Task 2 keeps a priority that no one donates any more. */
  lemma DropStopsShort(max: nat)
    ensures Boosted(TwoBoost()) && TwoBoost().blockedOn[3] == 0 && Sizes(TwoBoost())
    ensures HeirIsFresh(Unblock(TwoBoost(), 0, 3), 0) && !LeavesWell(TwoBoost(), 0, 3, max)
  {
    hide Trees, PiTrees, Keys, Stepped, Left, Aside;
    TwoBoostIsBoosted();
    OneHasLeft();
    OneStepDown();
    SteppedKeepsShape(OneLeft(), 1, 0);
    var p := Stepped(OneLeft(), 1, 0);
    TreesAreSized(p);
    if max > 0 {
      assert Stops(p, 1, 0, 0, 3) && !KeyFresh(p, 1);
      assert !Settles(p, 1, 0, 0, 3, max - 1);
    }
    assert !Settles(OneLeft(), 0, None, 0, 3, max);
  }
}
