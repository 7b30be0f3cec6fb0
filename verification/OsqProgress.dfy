/** Nobody is stuck in tests/locking/osq_lock.c: who a CPU waits for, and that lock, unlock and
    cancellation come to an end, with what they should, when no other CPU interferes. */
module OsqProgress {

  import opened Osq

  /** A CPU that cannot move although it wants to spins on its own flag, behind another CPU; and that it
      can always do is give up. */
  lemma StuckOnlyBehind(s: State, q: Queue, c: nat)
    requires Inv(s, q) && c < |s.local| && !s.local[c].pc.Idle? && Step(s, c, Proceed) == s
    ensures s.local[c].pc == Waiting(Spin) && q.pred[c] != Null && Neighbours(s, q, q.pred[c], c)
    ensures Step(s, c, GiveUp) != s
  {
    assert CpuOk(s, q, c);
  }

  /** `n` steps of CPU `c` alone, as long as pointers are pointers. */
  ghost function Alone(s: State, c: nat, choice: Choice, n: nat): (s': State)
    requires c < |s.local|
    ensures SameSystem(s, s')
    decreases n
  {
    if n == 0 || !WellFormed(s) then s else Alone(Step(s, c, choice), c, choice, n - 1)
  }

  // ---------------------------------------------------------------------------
  // Locking
  // ---------------------------------------------------------------------------

  function EnterLeft(pc: Pc): nat {
    match pc
    case Entering(e) => (match e case ClearLocked => 6 case ClearNext => 5 case SetCpu => 4 case SwapTail => 3)
    case Linking(l) => if l.SetPrev? then 2 else 1
    case _ => 0
  }

  /** The lock is free and the CPU gets it, or it links itself behind `was`, who was last in the queue. */
  ghost predicate Joins(s: State, c: nat, was: int)
    requires c < |s.local| == |s.node|
  {
    var me := s.local[c];
    && me.lk < |s.tail|
    && if me.pc.Entering? then s.tail[me.lk] == was
       else s.tail[me.lk] == EncodeCpu(c)
            && if was == Unlocked then me.pc == Owning(Held)
               else (me.pc.Linking? && me.prev == DecodeCpu(was))
                    || (me.pc == Waiting(Spin) && was - 1 < |s.node| && 0 <= was - 1 && s.node[was - 1].next == c)
  }

  lemma EnterAdvances(s: State, q: Queue, c: nat, choice: Choice, was: int)
    requires Inv(s, q) && c < |s.local| && (s.local[c].pc.Entering? || s.local[c].pc.Linking?) && Joins(s, c, was)
    ensures var s' := Step(s, c, choice);
            && Joins(s', c, was) && EnterLeft(s'.local[c].pc) < EnterLeft(s.local[c].pc)
            && s'.local[c].lk == s.local[c].lk
  {
    assert CpuOk(s, q, c);
    if s.local[c].pc.Entering? {
      assert LockOk(s, q, s.local[c].lk) && TailOk(s, s.local[c].lk);
    }
  }

  /** osq_lock, undisturbed: on a free lock the CPU owns it after at most six steps, otherwise it spins
      by then, and the CPU that was last in the queue knows about it. */
  lemma {:induction false} EnterAlone(s: State, q: Queue, c: nat, choice: Choice, was: int) returns (n: nat)
    requires Inv(s, q) && c < |s.local| && Joins(s, c, was)
    requires s.local[c].pc.Entering? || s.local[c].pc.Linking? || s.local[c].pc == Owning(Held)
             || s.local[c].pc == Waiting(Spin)
    ensures n <= EnterLeft(s.local[c].pc) <= 6
    ensures var s' := Alone(s, c, choice, n);
            && |s'.node| == |s'.local| && Joins(s', c, was) && s'.local[c].lk == s.local[c].lk
            && s'.local[c].pc == if was == Unlocked then Owning(Held) else Waiting(Spin)
    decreases EnterLeft(s.local[c].pc)
  {
    hide Step, LockOk, CpuOk, LocalOk, TailOk;
    if s.local[c].pc.Entering? || s.local[c].pc.Linking? {
      EnterAdvances(s, q, c, choice, was);
      var q' := StepKeepsInv(s, q, c, choice);
      n := EnterAlone(Step(s, c, choice), q', c, choice, was);
      n := n + 1;
    } else {
      n := 0;
    }
  }

  /** From the call on. */
  lemma LockAlone(s: State, q: Queue, c: nat, l: nat) returns (n: nat)
    requires Inv(s, q) && c < |s.local| && s.local[c].pc.Idle? && l < |s.tail| && s.tail[l] == Unlocked
    ensures var s' := Alone(s, c, Ask(l), n);
            && n <= 7 && s'.local[c].pc == Owning(Held) && s'.local[c].lk == l && s'.tail[l] == EncodeCpu(c)
  {
    hide LockOk, CpuOk, LocalOk, TailOk, EnterStep, LinkStep, WaitStep, LeaveStep, OwnStep;
    var s1 := Step(s, c, Ask(l));
    var q' := StepKeepsInv(s, q, c, Ask(l));
    n := EnterAlone(s1, q', c, Ask(l), Unlocked);
    n := n + 1;
  }

  function GrantLeft(w: WaitPc): nat {
    match w case Spin => 1 case ReadLocked => 1 case UnlinkPrev => 2 case ReadPrevNext => 3 case ReloadPrev => 4
  }

  /** The predecessor of a CPU that has been granted the lock has forgotten it. */
  lemma GrantAdvances(s: State, q: Queue, c: nat, choice: Choice)
    requires Inv(s, q) && c < |s.local| && s.local[c].pc.Waiting? && s.node[c].locked
    ensures var s' := Step(s, c, choice);
            || s'.local[c].pc == Owning(Held)
            || (s'.local[c].pc.Waiting? && s'.node[c].locked
                && GrantLeft(s'.local[c].pc.wait) < GrantLeft(s.local[c].pc.wait))
  {
    assert CpuOk(s, q, c) && CpuOk(s, q, s.local[c].prev);
  }

  /** A CPU that has been granted the lock owns it after at most four steps, even while it cancels. */
  lemma {:induction false} GrantedAlone(s: State, q: Queue, c: nat, choice: Choice) returns (n: nat)
    requires Inv(s, q) && c < |s.local| && s.local[c].pc.Waiting? && s.node[c].locked
    ensures n <= 4 && n <= GrantLeft(s.local[c].pc.wait) && Alone(s, c, choice, n).local[c].pc == Owning(Held)
    decreases GrantLeft(s.local[c].pc.wait)
  {
    hide Step, LockOk, CpuOk, LocalOk, TailOk;
    GrantAdvances(s, q, c, choice);
    var s1 := Step(s, c, choice);
    assert Alone(s1, c, choice, 0) == s1;
    if s1.local[c].pc == Owning(Held) {
      n := 1;
      assert Alone(s, c, choice, 1) == Alone(s1, c, choice, 0);
    } else {
      var q' := StepKeepsInv(s, q, c, choice);
      n := GrantedAlone(s1, q', c, choice);
      n := n + 1;
    }
  }

  /** Giving up begins by unlinking from the predecessor: it succeeds when that still points here, and
      is tried again behind the new predecessor otherwise. */
  lemma CancelBegins(s: State, q: Queue, c: nat)
    requires Inv(s, q) && c < |s.local| && s.local[c].pc.Waiting? && !s.node[c].locked
    ensures 0 <= s.local[c].prev < |s.node|
    ensures var p, w, s' := s.local[c].prev, s.local[c].pc.wait, Step(s, c, GiveUp);
            var knows := s.node[p].next == c;
            && (w.Spin? ==> s'.local[c].pc == Waiting(ReadPrevNext) && Step(s, c, Proceed) == s)
            && (w.ReadPrevNext? ==> s'.local[c].pc == Waiting(if knows then UnlinkPrev else ReadLocked))
            && (w.UnlinkPrev? && knows ==> s'.local[c].pc == Leaving(ReadPrevCpu) && s'.node[p].next == Null)
            && (w.UnlinkPrev? && !knows ==> s'.local[c].pc == Waiting(ReadLocked))
            && (w.ReloadPrev? ==> s'.local[c].pc == Waiting(ReadPrevNext) && s'.local[c].prev == s.node[c].prev)
  {
    assert CpuOk(s, q, c);
  }

  // ---------------------------------------------------------------------------
  // Leaving and unlocking
  // ---------------------------------------------------------------------------

  /** In osq_unlock, or past step A of a cancellation. */
  predicate Parts(pc: Pc) { pc.Owning? || pc.Leaving? }

  /** The successor, where it is known. */
  function Heir(s: State, c: nat): int
    requires c < |s.local| && c < |s.node|
  {
    if Took(s.local[c].pc) then s.local[c].next else s.node[c].next
  }

  /** Nobody is behind, or somebody is and known. */
  predicate Settled(s: State, c: nat)
    requires c < |s.local| && c < |s.node|
  {
    Heir(s, c) != Null || (s.local[c].lk < |s.tail| && s.tail[s.local[c].lk] == EncodeCpu(c))
  }

  /** Who has to wait in osq_wait_next waits for somebody behind it. */
  lemma UnsettledHasSuccessor(s: State, q: Queue, c: nat)
    requires Inv(s, q) && c < |s.local| && Parts(s.local[c].pc) && !Settled(s, c)
    ensures q.succ[c] != Null && Neighbours(s, q, c, q.succ[c])
  {
    assert CpuOk(s, q, c) && LockOk(s, q, s.local[c].lk);
  }

  function WaitNextLeft(w: WaitNextPc, linked: bool): nat {
    match w
    case ReadTail => 6
    case SwingTail => 5
    case ReadNext => if linked then 4 else 7
    case TakeNext => if linked then 3 else 7
  }

  function PartLeft(pc: Pc, linked: bool): nat {
    match pc
    case Owning(o) =>
      (match o case Held => 9 case UnlockFast => 8 case UnlockTake => 7 case OwnWait(w) => WaitNextLeft(w, linked)
               case Grant => 1)
    case Leaving(l) =>
      (match l case ReadPrevCpu => 8 case LeaveWait(w) => WaitNextLeft(w, linked) case RelinkNext => 2
               case RelinkPrev => 1)
    case _ => 0
  }

  /** What is left behind: to an heir, the lock or the place in the queue. */
  ghost predicate Bequeathed(s: State, s': State, c: nat, heir: int)
    requires c < |s.local| && SameSystem(s, s')
  {
    0 <= heir < |s'.node| ==>
      if s.local[c].pc.Owning? then s'.node[heir].locked
      else 0 <= s.local[c].prev < |s'.node| && s'.node[s.local[c].prev].next == heir
  }

  /** On the way, what has been written for the heir so far stays. */
  ghost predicate OnTheWay(s: State, s': State, c: nat)
    requires c < |s.local| && c < |s.node| && SameSystem(s, s')
  {
    && Parts(s'.local[c].pc) && s'.local[c].pc.Owning? == s.local[c].pc.Owning? && s'.local[c].prev == s.local[c].prev
    && Heir(s', c) == Heir(s, c) && Settled(s', c)
    && PartLeft(s'.local[c].pc, s'.node[c].next != Null) < PartLeft(s.local[c].pc, s.node[c].next != Null)
  }

  lemma PartAdvances(s: State, q: Queue, c: nat)
    requires Inv(s, q) && c < |s.local| && Parts(s.local[c].pc) && Settled(s, c)
    ensures var s' := Step(s, c, Proceed);
            OnTheWay(s, s', c) || (s'.local[c].pc.Idle? && Bequeathed(s, s', c, Heir(s, c)))
  {
    assert CpuOk(s, q, c) && LockOk(s, q, s.local[c].lk);
  }

  /** osq_unlock, and a cancellation past step A, are done after at most nine steps when nobody is
      behind, or somebody is and has linked itself; and that one has got the lock, or the place. */
  lemma {:induction false} PartAlone(s: State, q: Queue, c: nat) returns (n: nat)
    requires Inv(s, q) && c < |s.local| && Parts(s.local[c].pc) && Settled(s, c)
    ensures n <= PartLeft(s.local[c].pc, s.node[c].next != Null) <= 9
    ensures var s' := Alone(s, c, Proceed, n); s'.local[c].pc.Idle? && Bequeathed(s, s', c, Heir(s, c))
    decreases PartLeft(s.local[c].pc, s.node[c].next != Null)
  {
    hide Step, LockOk, CpuOk, LocalOk, TailOk, Settled, Heir;
    PartAdvances(s, q, c);
    var s1 := Step(s, c, Proceed);
    assert Alone(s1, c, Proceed, 0) == s1;
    if s1.local[c].pc.Idle? {
      n := 1;
      assert Alone(s, c, Proceed, 1) == Alone(s1, c, Proceed, 0);
    } else {
      var q' := StepKeepsInv(s, q, c, Proceed);
      n := PartAlone(s1, q', c);
      n := n + 1;
    }
  }

  /** When all CPUs are done all locks are free. */
  lemma QuietIsUnlocked(s: State, q: Queue, l: nat)
    requires Inv(s, q) && (forall c :: 0 <= c < |s.local| ==> s.local[c].pc.Idle?) && l < |s.tail|
    ensures s.tail[l] == Unlocked
  {
    assert LockOk(s, q, l);
  }
}
