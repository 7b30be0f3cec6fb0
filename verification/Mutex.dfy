/** The sleeping mutex of tests/locking/mutex.c: an owner word with three flag bits, a FIFO wait
    list under a spin lock, and a hand-off that names the next owner. One transition is one access
    to the owner word or one step under the wait lock; any number of tasks. */
module Mutex {

  const NoTask := -1

  /** The owner word: a task and MUTEX_FLAG_WAITERS, _HANDOFF, _PICKUP. */
  datatype Word = Word(task: int, waiters: bool, handoff: bool, pickup: bool)

  const Zero := Word(NoTask, false, false, false)

  /** Where a call of __mutex_trylock_common stands in the code around it. */
  datatype Try = Once | Start | Enqueue | Loop | Woken(first: bool) | Spin

  datatype Pc =
    | Idle
    // lock
    | LockFast
    | TryRead(at: Try) | TryCas(at: Try)
    | WaitLock
    | AddWaiter | SetWaiters
    | CheckSignal
    | Sleep
    | Relock
    | AcquiredRelock
    | Remove(ok: bool) | ClearFlags(ok: bool) | Leave(ok: bool)
    | Held
    // unlock
    | UnlockFast | UnlockRead | UnlockCas
    | UnlockWait(handoff: bool) | PickNext(handoff: bool)
    | HandRead | HandCas | UnlockLeave

  /** A task's program point, the value of the owner word it read last, and the waiter it picked. */
  datatype Local = Local(pc: Pc, seen: Word, next: int)

  datatype State = State(owner: Word, waitLock: int, waitList: seq<int>, local: seq<Local>)

  /** What the environment decides: which call to make, whether a signal is pending, whether to go
      on spinning. */
  datatype Choice = Choice(tryOnly: bool, signal: bool, spin: bool)

  ghost predicate Init(s: State) {
    && s.owner == Zero && s.waitLock == NoTask && s.waitList == []
    && forall t :: 0 <= t < |s.local| ==> s.local[t] == Local(Idle, Zero, NoTask)
  }

  // ---------------------------------------------------------------------------
  // Transitions
  // ---------------------------------------------------------------------------

  function Goto(s: State, t: nat, pc: Pc): (s': State)
    requires t < |s.local|
  {
    s.(local := s.local[t := s.local[t].(pc := pc)])
  }

  function See(s: State, t: nat, pc: Pc): State
    requires t < |s.local|
  {
    s.(local := s.local[t := s.local[t].(pc := pc, seen := s.owner)])
  }

  /** raw_spin_lock: waits while the wait lock is taken. */
  function TakeWaitLock(s: State, t: nat, pc: Pc): State
    requires t < |s.local|
  {
    if s.waitLock == NoTask then Goto(s.(waitLock := t), t, pc) else s
  }

  function DropWaitLock(s: State, t: nat, pc: Pc): State
    requires t < |s.local|
  {
    Goto(s.(waitLock := NoTask), t, pc)
  }

  /** The point after a successful trylock. */
  function Won(at: Try): Pc {
    match at
    case Once => Held
    case Start => Held
    case Enqueue => Leave(true)
    case Loop => Remove(true)
    case Woken(_) => AcquiredRelock
    case Spin => AcquiredRelock
  }

  /** The point after a failed one; only the first waiter and newcomers spin. */
  function Lost(at: Try, spin: bool): Pc {
    match at
    case Once => Idle
    case Start => if spin then TryRead(Start) else WaitLock
    case Enqueue => AddWaiter
    case Loop => CheckSignal
    case Woken(first) => if first && spin then TryRead(Spin) else Relock
    case Spin => if spin then TryRead(Spin) else Relock
  }

  /** What __mutex_trylock_common does about the word it saw: give up, or try to install a word. */
  datatype Attempt = GiveUp | Install(w: Word)

  function Attempted(w: Word, t: int, handoff: bool): Attempt {
    if w.task != NoTask then
      if w.pickup then
        if w.task != t then GiveUp else Install(w.(pickup := false))
      else if handoff then
        if w.handoff then GiveUp else Install(w.(handoff := true))
      else GiveUp
    else Install(w.(task := t))
  }

  /** The body of the loop of __mutex_trylock_common: the cmpxchg fails when the word changed. */
  function TryStep(s: State, t: nat, c: Choice): State
    requires t < |s.local| && s.local[t].pc.TryCas?
  {
    var at := s.local[t].pc.at;
    var seen := s.local[t].seen;
    match Attempted(seen, t, at == Woken(true))
    case GiveUp => Goto(s, t, Lost(at, c.spin))
    case Install(w) =>
      if s.owner != seen then See(s, t, TryCas(at))
      else Goto(s.(owner := w), t, if w.task == t then Won(at) else Lost(at, c.spin))
  }

  /** mutex_lock and __mutex_lock_common, apart from the trylocks. */
  function LockStep(s: State, t: nat, c: Choice): State
    requires t < |s.local|
  {
    match s.local[t].pc
    case Idle => Goto(s, t, if c.tryOnly then TryRead(Once) else LockFast)
    case LockFast =>
      if s.owner == Zero then Goto(s.(owner := Zero.(task := t)), t, Held) else Goto(s, t, TryRead(Start))
    case TryRead(at) => See(s, t, TryCas(at))
    case WaitLock => TakeWaitLock(s, t, TryRead(Enqueue))
    case AddWaiter =>
      var s' := s.(waitList := s.waitList + [t]);
      Goto(s', t, if s.waitList == [] then SetWaiters else TryRead(Loop))
    case SetWaiters => Goto(s.(owner := s.owner.(waiters := true)), t, TryRead(Loop))
    case CheckSignal => if c.signal then Goto(s, t, Remove(false)) else DropWaitLock(s, t, Sleep)
    case Sleep => Goto(s, t, TryRead(Woken(s.waitList != [] && s.waitList[0] == t)))
    case Relock => TakeWaitLock(s, t, TryRead(Loop))
    case AcquiredRelock => TakeWaitLock(s, t, Remove(true))
    case Remove(ok) =>
      var rest := Without(s.waitList, t);
      Goto(s.(waitList := rest), t, if rest == [] then ClearFlags(ok) else Leave(ok))
    case ClearFlags(ok) => Goto(s.(owner := Word(s.owner.task, false, false, false)), t, Leave(ok))
    case Leave(ok) => DropWaitLock(s, t, if ok then Held else Idle)
    case _ => s
  }

  /** list_del of the one entry of task `t`. */
  function Without(list: seq<int>, t: int): seq<int> {
    if list == [] then [] else if list[0] == t then list[1..] else [list[0]] + Without(list[1..], t)
  }

  /** mutex_unlock, __mutex_unlock_slowpath and __mutex_handoff. */
  function UnlockStep(s: State, t: nat): State
    requires t < |s.local|
  {
    var seen, next := s.local[t].seen, s.local[t].next;
    match s.local[t].pc
    case Held => Goto(s, t, UnlockFast)
    case UnlockFast =>
      if s.owner == Zero.(task := t) then Goto(s.(owner := Zero), t, Idle) else Goto(s, t, UnlockRead)
    case UnlockRead => See(s, t, UnlockCas)
    case UnlockCas =>
      if seen.handoff then Goto(s, t, UnlockWait(true))
      else if s.owner != seen then See(s, t, UnlockCas)
      else Goto(s.(owner := seen.(task := NoTask)), t, if seen.waiters then UnlockWait(false) else Idle)
    case UnlockWait(handoff) => TakeWaitLock(s, t, PickNext(handoff))
    case PickNext(handoff) =>
      var first := if s.waitList == [] then NoTask else s.waitList[0];
      Goto(s.(local := s.local[t := s.local[t].(next := first)]), t, if handoff then HandRead else UnlockLeave)
    case HandRead => See(s, t, HandCas)
    case HandCas =>
      if s.owner != seen then See(s, t, HandCas)
      else Goto(s.(owner := Word(next, seen.waiters, false, next != NoTask)), t, UnlockLeave)
    case UnlockLeave => DropWaitLock(s, t, Idle)
    case _ => s
  }

  predicate Unlocking(pc: Pc) {
    || pc.Held? || pc.UnlockFast? || pc.UnlockRead? || pc.UnlockCas? || pc.UnlockWait? || pc.PickNext?
    || pc.HandRead? || pc.HandCas? || pc.UnlockLeave?
  }

  function Step(s: State, t: nat, c: Choice): (s': State)
    requires t < |s.local|
    ensures |s'.local| == |s.local|
  {
    if s.local[t].pc.TryCas? then TryStep(s, t, c)
    else if Unlocking(s.local[t].pc) then UnlockStep(s, t)
    else LockStep(s, t, c)
  }

  // ---------------------------------------------------------------------------
  // Invariants
  // ---------------------------------------------------------------------------

  /** Between winning the owner word and giving it up. */
  predicate Owns(pc: Pc) {
    match pc
    case Held | AcquiredRelock | UnlockFast | UnlockRead | UnlockCas | HandRead | HandCas => true
    case Remove(ok) => ok
    case ClearFlags(ok) => ok
    case Leave(ok) => ok
    case UnlockWait(handoff) => handoff
    case PickNext(handoff) => handoff
    case _ => false
  }

  predicate HoldsWaitLock(pc: Pc) {
    match pc
    case TryRead(at) => at.Enqueue? || at.Loop?
    case TryCas(at) => at.Enqueue? || at.Loop?
    case AddWaiter | SetWaiters | CheckSignal | Remove(_) | ClearFlags(_) | Leave(_) => true
    case PickNext(_) | HandRead | HandCas | UnlockLeave => true
    case _ => false
  }

  predicate OnList(pc: Pc) {
    match pc
    case TryRead(at) => at.Loop? || at.Woken? || at.Spin?
    case TryCas(at) => at.Loop? || at.Woken? || at.Spin?
    case SetWaiters | CheckSignal | Sleep | Relock | AcquiredRelock | Remove(_) => true
    case _ => false
  }

  /** On the list, without the lock, and bound to try for it again. */
  predicate WillTry(pc: Pc) { OnList(pc) && !Owns(pc) && !pc.CheckSignal? && !pc.Remove? }

  /** The lock has been handed to `t`, which has not picked it up. */
  predicate Named(w: Word, t: int) { w.task == t && w.pickup }

  /** The wait lock and the wait list, as task `t` sees them. */
  ghost predicate ListOk(s: State, t: int)
    requires 0 <= t < |s.local|
  {
    var pc := s.local[t].pc;
    && (HoldsWaitLock(pc) <==> s.waitLock == t)
    && (OnList(pc) <==> t in s.waitList)
    && (pc.SetWaiters? ==> s.waitList == [t])
    && (pc.ClearFlags? ==> s.waitList == [])
    && (pc.HandRead? || pc.HandCas? ==> s.local[t].next == NoTask || s.local[t].next in s.waitList)
  }

  ghost predicate Distinct(list: seq<int>) {
    forall i, j :: 0 <= i < j < |list| ==> list[i] != list[j]
  }

  ghost predicate Listed(s: State) {
    && Distinct(s.waitList)
    && (forall x :: x in s.waitList ==> 0 <= x < |s.local|)
    && (s.waitLock == NoTask || 0 <= s.waitLock < |s.local|)
    && forall t :: 0 <= t < |s.local| ==> ListOk(s, t)
  }

  /** The owner word, as task `t` sees it. */
  ghost predicate OwnerOk(s: State, t: int)
    requires 0 <= t < |s.local|
  {
    var pc := s.local[t].pc;
    && (Owns(pc) <==> s.owner.task == t && !s.owner.pickup)
    && (Named(s.owner, t) ==> WillTry(pc))
    && (pc == TryCas(Loop) && Named(s.owner, t) ==> Named(s.local[t].seen, t))
  }

  /** Nobody is about to set or clear WAITERS. */
  ghost predicate Settled(s: State) {
    0 <= s.waitLock < |s.local| ==> !s.local[s.waitLock].pc.SetWaiters? && !s.local[s.waitLock].pc.ClearFlags?
  }

  /** The flags: WAITERS says whether the list has members, but for the holder of the wait lock
      that is about to set or clear it. */
  ghost predicate FlagsOk(s: State) {
    && (s.owner.task == NoTask ==> !s.owner.handoff && !s.owner.pickup)
    && (s.owner.task == NoTask || 0 <= s.owner.task < |s.local|)
    && (Settled(s) ==> (s.owner.waiters <==> s.waitList != []))
  }

  ghost predicate Inv(s: State) {
    && Listed(s) && FlagsOk(s)
    && forall t :: 0 <= t < |s.local| ==> OwnerOk(s, t)
  }

  lemma {:induction false} WithoutIs(list: seq<int>, t: int)
    requires Distinct(list)
    ensures Distinct(Without(list, t))
    ensures forall x :: x in Without(list, t) <==> x in list && x != t
  {
    if list != [] {
      assert list == [list[0]] + list[1..];
      WithoutIs(list[1..], t);
      if list[0] != t {
        var rest := Without(list[1..], t);
        assert list[0] !in rest by {
          assert list[0] !in list[1..];
        }
      }
    }
  }

  lemma InitInv(s: State)
    requires Init(s)
    ensures Inv(s)
  {
  }

  /** The list and the wait lock change only in the hands of the one who holds the wait lock. */
  lemma ListSteady(s: State, t: nat, c: Choice, x: nat)
    requires t < |s.local| && x < |s.local| && x != t && ListOk(s, t) && ListOk(s, x) && Distinct(s.waitList)
    ensures ListOk(Step(s, t, c), x)
  {
    hide Without;
    WithoutIs(s.waitList, t);
  }

  lemma ListOwnTry(s: State, t: nat, c: Choice)
    requires t < |s.local| && s.local[t].pc.TryCas?
    requires ListOk(s, t) && Distinct(s.waitList)
    ensures ListOk(Step(s, t, c), t)
  {
    hide Without;
    WithoutIs(s.waitList, t);
  }

  lemma ListOwnUnlock(s: State, t: nat, c: Choice)
    requires t < |s.local| && !s.local[t].pc.TryCas? && Unlocking(s.local[t].pc)
    requires ListOk(s, t) && Distinct(s.waitList)
    ensures ListOk(Step(s, t, c), t)
  {
    hide Without;
    WithoutIs(s.waitList, t);
  }

  lemma ListOwnLock(s: State, t: nat, c: Choice)
    requires t < |s.local| && !s.local[t].pc.TryCas? && !Unlocking(s.local[t].pc)
    requires ListOk(s, t) && Distinct(s.waitList)
    ensures ListOk(Step(s, t, c), t)
  {
    hide Without;
    WithoutIs(s.waitList, t);
  }

  lemma ListShape(s: State, t: nat, c: Choice)
    requires t < |s.local| && Listed(s)
    ensures var s' := Step(s, t, c);
            && Distinct(s'.waitList) && |s'.local| == |s.local|
            && (forall x :: x in s'.waitList ==> 0 <= x < |s.local|)
            && (s'.waitLock == NoTask || 0 <= s'.waitLock < |s.local|)
  {
    hide Without;
    assert ListOk(s, t);
    WithoutIs(s.waitList, t);
  }

  lemma ListKept(s: State, t: nat, c: Choice)
    requires t < |s.local| && Listed(s)
    ensures Listed(Step(s, t, c))
  {
    hide Step;
    ListShape(s, t, c);
    var s' := Step(s, t, c);
    assert ListOk(s, t);
    forall x | 0 <= x < |s'.local| ensures ListOk(s', x) {
      if x == t {
        if s.local[t].pc.TryCas? {
          ListOwnTry(s, t, c);
        } else if Unlocking(s.local[t].pc) {
          ListOwnUnlock(s, t, c);
        } else {
          ListOwnLock(s, t, c);
        }
      } else {
        assert ListOk(s, x);
        ListSteady(s, t, c, x);
      }
    }
  }

  lemma OwnerSteady(s: State, t: nat, c: Choice, x: nat)
    requires t < |s.local| && x < |s.local| && x != t
    requires ListOk(s, t) && ListOk(s, x) && OwnerOk(s, t) && OwnerOk(s, x)
    ensures OwnerOk(Step(s, t, c), x)
  {
    hide Without;
  }

  lemma OwnerOwnTry(s: State, t: nat, c: Choice)
    requires t < |s.local| && s.local[t].pc.TryCas?
    requires ListOk(s, t) && OwnerOk(s, t) && FlagsOk(s) && Distinct(s.waitList)
    ensures OwnerOk(Step(s, t, c), t)
  {
    hide Without;
    WithoutIs(s.waitList, t);
  }

  lemma OwnerOwnUnlock(s: State, t: nat, c: Choice)
    requires t < |s.local| && !s.local[t].pc.TryCas? && Unlocking(s.local[t].pc)
    requires ListOk(s, t) && OwnerOk(s, t) && FlagsOk(s) && Distinct(s.waitList)
    ensures OwnerOk(Step(s, t, c), t)
  {
    hide Without;
    WithoutIs(s.waitList, t);
  }

  lemma OwnerOwnLock(s: State, t: nat, c: Choice)
    requires t < |s.local| && !s.local[t].pc.TryCas? && !Unlocking(s.local[t].pc)
    requires ListOk(s, t) && OwnerOk(s, t) && FlagsOk(s) && Distinct(s.waitList)
    ensures OwnerOk(Step(s, t, c), t)
  {
    hide Without;
    WithoutIs(s.waitList, t);
  }

  lemma OwnersKept(s: State, t: nat, c: Choice)
    requires t < |s.local| && Inv(s)
    ensures forall x :: 0 <= x < |s.local| ==> OwnerOk(Step(s, t, c), x)
  {
    hide Step;
    assert ListOk(s, t) && OwnerOk(s, t);
    forall x | 0 <= x < |Step(s, t, c).local| ensures OwnerOk(Step(s, t, c), x) {
      if x == t {
        if s.local[t].pc.TryCas? {
          OwnerOwnTry(s, t, c);
        } else if Unlocking(s.local[t].pc) {
          OwnerOwnUnlock(s, t, c);
        } else {
          OwnerOwnLock(s, t, c);
        }
      } else {
        assert ListOk(s, x) && OwnerOk(s, x);
        OwnerSteady(s, t, c, x);
      }
    }
  }

  lemma FlagsKept(s: State, t: nat, c: Choice)
    requires t < |s.local| && Inv(s)
    ensures FlagsOk(Step(s, t, c))
  {
    assert ListOk(s, t) && OwnerOk(s, t);
  }

  lemma StepKeepsInv(s: State, t: nat, c: Choice)
    requires t < |s.local| && Inv(s)
    ensures Inv(Step(s, t, c)) && |Step(s, t, c).local| == |s.local|
  {
    hide Step, Listed, FlagsOk;
    ListKept(s, t, c);
    OwnersKept(s, t, c);
    FlagsKept(s, t, c);
    ListShape(s, t, c);
  }

  // ---------------------------------------------------------------------------
  // Runs
  // ---------------------------------------------------------------------------

  datatype Event = Event(task: nat, choice: Choice)

  ghost function Run(s: State, events: seq<Event>): (s': State)
    ensures |s'.local| == |s.local|
  {
    if events == [] then s
    else
      var e := events[|events| - 1];
      var before := Run(s, events[..|events| - 1]);
      if e.task < |before.local| then Step(before, e.task, e.choice) else before
  }

  lemma {:induction false} RunKeepsInv(s: State, events: seq<Event>)
    requires Init(s)
    ensures Inv(Run(s, events)) && |Run(s, events).local| == |s.local|
  {
    hide Step, Inv;
    if events == [] {
      InitInv(s);
    } else {
      var e := events[|events| - 1];
      RunKeepsInv(s, events[..|events| - 1]);
      var before := Run(s, events[..|events| - 1]);
      if e.task < |before.local| {
        StepKeepsInv(before, e.task, e.choice);
      }
    }
  }

  /** At most one task owns the mutex, in every run. */
  lemma MutualExclusion(s: State, events: seq<Event>, t: nat, u: nat)
    requires Init(s) && t < |s.local| && u < |s.local|
    requires Owns(Run(s, events).local[t].pc) && Owns(Run(s, events).local[u].pc)
    ensures t == u
  {
    RunKeepsInv(s, events);
    assert OwnerOk(Run(s, events), t) && OwnerOk(Run(s, events), u);
  }

  /** Outside wait-lock sections a waiter shows in the owner word, so an unlock cannot miss it. */
  lemma WaitersShow(s: State, events: seq<Event>)
    requires Init(s) && Run(s, events).waitLock == NoTask
    ensures Run(s, events).owner.waiters <==> Run(s, events).waitList != []
  {
    RunKeepsInv(s, events);
  }

  /** An ownerless mutex carries neither HANDOFF nor PICKUP. */
  lemma OwnerlessIsClean(s: State, events: seq<Event>)
    requires Init(s) && Run(s, events).owner.task == NoTask
    ensures !Run(s, events).owner.handoff && !Run(s, events).owner.pickup
  {
    RunKeepsInv(s, events);
  }

  /** A mutex handed to a task stays with it, on the wait list and bound to try again, whatever
      anybody does, until it picks the mutex up: no signal can orphan it. */
  lemma HandOffIsPickedUp(s: State, events: seq<Event>, t: nat, u: nat, c: Choice)
    requires Init(s) && t < |s.local| && u < |s.local| && Named(Run(s, events).owner, t)
    ensures var now := Run(s, events); var next := Step(now, u, c);
            && t in now.waitList && WillTry(now.local[t].pc)
            && (Named(next.owner, t) || (u == t && Owns(next.local[t].pc)))
  {
    RunKeepsInv(s, events);
    var now := Run(s, events);
    assert OwnerOk(now, t) && ListOk(now, t) && OwnerOk(now, u) && ListOk(now, u);
  }

  /** Only a waiter is ever named. */
  lemma PickupIsForAWaiter(s: State, events: seq<Event>)
    requires Init(s) && Run(s, events).owner.pickup
    ensures Run(s, events).owner.task in Run(s, events).waitList
  {
    RunKeepsInv(s, events);
    var now := Run(s, events);
    assert OwnerOk(now, now.owner.task) && ListOk(now, now.owner.task);
  }

  // ---------------------------------------------------------------------------
  // What the calls decide
  // ---------------------------------------------------------------------------

  /** A trylock that compares with the word as it is: it gets the mutex exactly when that has no owner
      or has been handed to the task. Then the word names the task, without PICKUP and with the other
      flags as they were. A first waiter that fails leaves HANDOFF, unless the mutex has been handed to
      someone; any other failure leaves the word alone. */
  lemma TrylockDecides(s: State, t: nat, c: Choice)
    requires Inv(s) && t < |s.local| && s.local[t].pc.TryCas? && s.owner == s.local[t].seen
    ensures var w, w', first := s.owner, Step(s, t, c).owner, s.local[t].pc.at == Woken(true);
            && (Owns(Step(s, t, c).local[t].pc) <==> w.task == NoTask || Named(w, t))
            && (w.task == NoTask || Named(w, t) ==> w' == Word(t, w.waiters, w.handoff, false))
            && (w.task != NoTask && !Named(w, t) ==> w' == if first && !w.pickup then w.(handoff := true) else w)
    ensures Step(s, t, c).waitList == s.waitList && Step(s, t, c).waitLock == s.waitLock
    ensures forall u :: 0 <= u < |s.local| && u != t ==> Step(s, t, c).local[u] == s.local[u]
  {
    assert OwnerOk(s, t);
  }

  /** When the word has changed since it was read, the word is left alone, and the task looks again
      unless what it has seen was enough to give up. */
  lemma TrylockLooksAgain(s: State, t: nat, c: Choice)
    requires t < |s.local| && s.local[t].pc.TryCas? && s.owner != s.local[t].seen
    ensures var w, s', first := s.local[t].seen, Step(s, t, c), s.local[t].pc.at == Woken(true);
            && s'.owner == s.owner
            && (w.task == NoTask || Named(w, t) || (first && !w.pickup && !w.handoff) ==>
                  s'.local[t] == s.local[t].(seen := s.owner))
            && (s'.local[t] == s.local[t].(seen := s.owner) || !Owns(s'.local[t].pc))
  {
  }

  const TryOnce := Choice(true, false, false)

  /** Who spins instead of queueing or sleeping: newcomers and the first waiter, as long as they are told
      to, and nobody else. */
  lemma SpinsIff(s: State, t: nat, c: Choice)
    requires t < |s.local| && s.local[t].pc.TryCas?
    requires var pc' := Step(s, t, c).local[t].pc; !pc'.TryCas? && !Owns(pc')
    ensures var at, pc' := s.local[t].pc.at, Step(s, t, c).local[t].pc;
            && (pc'.TryRead? <==> c.spin && (at.Start? || at.Spin? || at == Woken(true)))
            && (at == Woken(false) ==> pc' == Relock)
  {
  }

  /** mutex_trylock, undisturbed: it succeeds exactly on a mutex without an owner, and leaves any other alone. */
  lemma TrylockAlone(s: State, t: nat)
    requires Inv(s) && t < |s.local| && s.local[t].pc == Idle
    ensures var s3 := Step(Step(Step(s, t, TryOnce), t, TryOnce), t, TryOnce);
            && s3.local[t].pc == (if s.owner.task == NoTask then Held else Idle)
            && s3.owner == (if s.owner.task == NoTask then s.owner.(task := t) else s.owner)
  {
    assert OwnerOk(s, t);
  }

  /** mutex_unlock, where it gives the mutex up: the fast path only when there are no flags, the slow
      one keeps the flags, and goes on to wake the first waiter when WAITERS is set. With HANDOFF set
      the owner keeps the mutex until it has chosen who gets it. */
  lemma UnlockDecides(s: State, t: nat, c: Choice)
    requires Inv(s) && t < |s.local|
    requires s.local[t].pc.UnlockFast? || (s.local[t].pc.UnlockCas? && s.owner == s.local[t].seen)
    ensures var w, s', fast := s.owner, Step(s, t, c), s.local[t].pc.UnlockFast?;
            && (s'.owner.task == NoTask <==> if fast then !w.waiters && !w.handoff else !w.handoff)
            && s'.owner == (if s'.owner.task == NoTask then w.(task := NoTask) else w)
            && (s'.owner.task == NoTask <==> !Owns(s'.local[t].pc))
            && (!fast && s'.owner.task == NoTask ==> s'.local[t].pc == if w.waiters then UnlockWait(false) else Idle)
            && (!fast && w.handoff ==> s'.local[t].pc == UnlockWait(true))
  {
    assert OwnerOk(s, t);
  }

  /** A hand-off names the first waiter, or nobody if there is none: WAITERS stays, HANDOFF goes. */
  lemma HandOffDecides(s: State, t: nat, c: Choice)
    requires Inv(s) && t < |s.local|
    ensures s.local[t].pc == PickNext(true) ==>
              var s' := Step(s, t, c);
              && s'.local[t].pc == HandRead && s'.owner == s.owner
              && s'.local[t].next == if s.waitList == [] then NoTask else s.waitList[0]
    ensures s.local[t].pc == HandCas && s.owner == s.local[t].seen ==>
              var s', next := Step(s, t, c), s.local[t].next;
              && s'.owner.task == next && s'.owner.waiters == s.owner.waiters && !s'.owner.handoff
              && (if next == NoTask then !s'.owner.pickup else Named(s'.owner, next) && next in s.waitList)
              && s'.local[t].pc == UnlockLeave
  {
    assert ListOk(s, t);
  }

  /** Who waits is queued at the end and leaves from wherever it is. */
  lemma ListDecides(s: State, t: nat, c: Choice)
    requires Inv(s) && t < |s.local|
    ensures s.local[t].pc == AddWaiter ==> Step(s, t, c).waitList == s.waitList + [t]
    ensures s.local[t].pc.Remove? ==>
              forall u :: u in Step(s, t, c).waitList <==> u in s.waitList && u != t
    ensures s.local[t].pc != AddWaiter && !s.local[t].pc.Remove? ==> Step(s, t, c).waitList == s.waitList
    ensures s.local[t].pc == Sleep ==>
              s.waitList != [] && Step(s, t, c).local[t].pc == TryRead(Woken(s.waitList[0] == t))
  {
    hide Without;
    assert ListOk(s, t);
    WithoutIs(s.waitList, t);
  }

  // ---------------------------------------------------------------------------
  // Nobody is stuck
  // ---------------------------------------------------------------------------

  /** A task that cannot move waits for the wait lock, and whoever has that can move. */
  lemma StuckOnlyBehind(s: State, t: nat, c: Choice)
    requires Inv(s) && t < |s.local| && Step(s, t, c) == s
    ensures 0 <= s.waitLock < |s.local| && s.waitLock != t && Step(s, s.waitLock, c) != s
  {
    hide Without;
    assert ListOk(s, t);
    if 0 <= s.waitLock < |s.local| {
      assert ListOk(s, s.waitLock);
    }
  }

  /** `n` steps of task `t` alone. */
  function Alone(s: State, t: nat, c: Choice, n: nat): (s': State)
    requires t < |s.local|
    ensures |s'.local| == |s.local|
    decreases n
  {
    if n == 0 then s else Alone(Step(s, t, c), t, c, n - 1)
  }

  /** In a blocking call of mutex_lock. */
  predicate Locking(pc: Pc) {
    match pc
    case TryRead(at) => !at.Once?
    case TryCas(at) => !at.Once?
    case Remove(ok) => ok
    case ClearFlags(ok) => ok
    case Leave(ok) => ok
    case _ => !pc.Idle? && !Unlocking(pc)
  }

  /** The mutex is free or has been handed to `t`, or `t` has it already; the wait lock is free for `t`. */
  predicate Open(s: State, t: nat)
    requires t < |s.local|
  {
    && (s.owner.task == NoTask || s.owner.task == t) && (s.waitLock == NoTask || s.waitLock == t)
  }

  /** How many steps mutex_lock needs at most. */
  function LockLeft(me: Local, owner: Word): nat {
    var stale := me.seen != owner;
    match me.pc
    case LockFast => 3
    case TryRead(at) => if at.Start? then 2 else if at.Enqueue? then 3 else if at.Loop? then 5 else 6
    case TryCas(at) =>
      if at.Start? then (if stale then 5 else 1)
      else if at.Enqueue? then (if stale then 8 else 2)
      else if at.Loop? then (if stale then 9 else 4)
      else if stale then 7 else 5
    case WaitLock => 4
    case AddWaiter => 7
    case SetWaiters => 6
    case CheckSignal => 8
    case Sleep => 7
    case Relock => 6
    case AcquiredRelock => 4
    case Remove(_) => 3
    case ClearFlags(_) => 2
    case Leave(_) => 1
    case _ => 0
  }

  lemma TryAdvances(s: State, t: nat, c: Choice)
    requires Inv(s) && t < |s.local| && s.local[t].pc.TryCas? && !s.local[t].pc.at.Once? && Open(s, t)
    ensures var s' := TryStep(s, t, c);
            && (s'.local[t].pc.Held? || Locking(s'.local[t].pc)) && Open(s', t)
            && LockLeft(s'.local[t], s'.owner) < LockLeft(s.local[t], s.owner)
  {
    hide FlagsOk, Distinct, Without;
    assert ListOk(s, t) && OwnerOk(s, t);
  }

  lemma WayAdvances(s: State, t: nat, c: Choice)
    requires Inv(s) && t < |s.local| && Locking(s.local[t].pc) && !s.local[t].pc.TryCas? && Open(s, t) && !c.signal
    ensures var s' := LockStep(s, t, c);
            && (s'.local[t].pc.Held? || Locking(s'.local[t].pc)) && Open(s', t)
            && LockLeft(s'.local[t], s'.owner) < LockLeft(s.local[t], s.owner)
  {
    hide Without;
    assert ListOk(s, t) && OwnerOk(s, t);
  }

  lemma LockAdvances(s: State, t: nat, c: Choice)
    requires Inv(s) && t < |s.local| && Locking(s.local[t].pc) && Open(s, t) && !c.signal
    ensures var s' := Step(s, t, c);
            && (s'.local[t].pc.Held? || Locking(s'.local[t].pc)) && Open(s', t)
            && LockLeft(s'.local[t], s'.owner) < LockLeft(s.local[t], s.owner)
  {
    hide Inv, Open, LockLeft, TryStep, LockStep;
    if s.local[t].pc.TryCas? {
      TryAdvances(s, t, c);
    } else {
      WayAdvances(s, t, c);
    }
  }

  /** Wherever a call of mutex_lock stands, on a mutex that is free or its own by then it gets the mutex
      in at most nine steps, if no other task and no signal interferes. */
  lemma {:induction false} LockAlone(s: State, t: nat, c: Choice) returns (n: nat)
    requires Inv(s) && t < |s.local| && (s.local[t].pc.Held? || Locking(s.local[t].pc)) && Open(s, t) && !c.signal
    ensures n <= LockLeft(s.local[t], s.owner) <= 9 && Alone(s, t, c, n).local[t].pc == Held
    decreases LockLeft(s.local[t], s.owner)
  {
    hide Inv, Step, Open;
    if s.local[t].pc.Held? {
      n := 0;
    } else {
      LockAdvances(s, t, c);
      StepKeepsInv(s, t, c);
      n := LockAlone(Step(s, t, c), t, c);
      n := n + 1;
    }
  }

  /** With a signal pending, who has not got the mutex does not go to sleep, but leaves the list. */
  lemma SignalGivesUp(s: State, t: nat, c: Choice)
    requires Inv(s) && t < |s.local| && s.local[t].pc.CheckSignal? && c.signal
    ensures Step(s, t, c).local[t].pc == Remove(false) && Step(s, t, c).owner == s.owner
    ensures exists n :: n <= 4 && Alone(s, t, c, n).local[t].pc == Idle
  {
    hide Without;
    assert ListOk(s, t);
    var s1 := Step(s, t, c);
    var s2 := Step(s1, t, c);
    var s3 := Step(s2, t, c);
    if s3.local[t].pc.Idle? {
      assert Alone(s, t, c, 3) == Alone(s1, t, c, 2) == Alone(s2, t, c, 1) == Alone(s3, t, c, 0);
    } else {
      assert Alone(s, t, c, 4) == Alone(s1, t, c, 3) == Alone(s2, t, c, 2) == Alone(s3, t, c, 1)
          == Alone(Step(s3, t, c), t, c, 0);
    }
  }

  /** mutex_lock on a mutex that nobody has or waits for: one compare-and-exchange. */
  lemma LockIsFast(s: State, t: nat, c: Choice)
    requires t < |s.local| && s.local[t].pc == Idle && s.owner == Zero && !c.tryOnly
    ensures Alone(s, t, c, 2) == s.(owner := Zero.(task := t), local := s.local[t := s.local[t].(pc := Held)])
  {
    assert Alone(s, t, c, 2) == Alone(Step(s, t, c), t, c, 1);
  }

  /** How many steps mutex_unlock needs at most. */
  function UnlockLeft(me: Local, owner: Word): nat {
    match me.pc
    case Held => 9
    case UnlockFast => 8
    case UnlockRead => 7
    case UnlockCas => if me.seen == owner then 6 else 7
    case UnlockWait(handoff) => if handoff then 5 else 3
    case PickNext(handoff) => if handoff then 4 else 2
    case HandRead => 3
    case HandCas => if me.seen == owner then 2 else 3
    case UnlockLeave => 1
    case _ => 0
  }

  lemma UnlockAdvances(s: State, t: nat, c: Choice)
    requires Inv(s) && t < |s.local| && Unlocking(s.local[t].pc) && (s.waitLock == NoTask || s.waitLock == t)
    ensures var s' := Step(s, t, c);
            && (s'.local[t].pc.Idle? || Unlocking(s'.local[t].pc)) && (s'.waitLock == NoTask || s'.waitLock == t)
            && UnlockLeft(s'.local[t], s'.owner) < UnlockLeft(s.local[t], s.owner)
  {
    assert ListOk(s, t) && OwnerOk(s, t);
  }

  /** A call of mutex_unlock is done in at most nine steps, and then the mutex is not the task's. */
  lemma {:induction false} UnlockAlone(s: State, t: nat, c: Choice) returns (n: nat)
    requires Inv(s) && t < |s.local| && (s.local[t].pc.Idle? || Unlocking(s.local[t].pc))
    requires s.waitLock == NoTask || s.waitLock == t
    ensures n <= UnlockLeft(s.local[t], s.owner) <= 9
    ensures Alone(s, t, c, n).local[t].pc == Idle && !Owned(Alone(s, t, c, n), t)
    decreases UnlockLeft(s.local[t], s.owner)
  {
    hide Inv, Step;
    if s.local[t].pc.Idle? {
      n := 0;
      IdleOwnsNothing(s, t);
    } else {
      UnlockAdvances(s, t, c);
      StepKeepsInv(s, t, c);
      n := UnlockAlone(Step(s, t, c), t, c);
      n := n + 1;
    }
  }

  predicate Owned(s: State, t: int) { s.owner.task == t }

  lemma IdleOwnsNothing(s: State, t: nat)
    requires Inv(s) && t < |s.local| && s.local[t].pc.Idle?
    ensures !Owned(s, t) && s.waitLock != t && t !in s.waitList
  {
    assert OwnerOk(s, t) && ListOk(s, t);
  }

  /** When all tasks are done the mutex is as it was made. */
  lemma QuietIsZero(s: State)
    requires Inv(s) && forall t :: 0 <= t < |s.local| ==> s.local[t].pc.Idle?
    ensures s.owner == Zero && s.waitLock == NoTask && s.waitList == []
  {
    if s.waitList != [] {
      assert s.waitList[0] in s.waitList;
      IdleOwnsNothing(s, s.waitList[0]);
    } else if 0 <= s.waitLock < |s.local| {
      IdleOwnsNothing(s, s.waitLock);
    } else if 0 <= s.owner.task < |s.local| {
      IdleOwnsNothing(s, s.owner.task);
    }
  }
}
