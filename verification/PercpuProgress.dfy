/** Nobody is stuck in tests/locking/percpu-rwsem.c: who a task waits for, and that lock and unlock
    calls come to an end, with what they should, when no other task interferes. */
module PercpuProgress {

  import opened PercpuRwsem

  /** What a task is about to access is there. */
  lemma StepIsOk(s: State, g: Ghost, t: nat)
    requires Inv(s, g) && TaskIn(s, t)
    ensures StepOk(s, t)
  {
    hide SumOk, WakeOk, Apart, Wrap;
    assert TaskOk(s, g, t);
    if s.waiters != [] {
      assert EntryOk(s, 0);
    }
  }

  /** A task that cannot move waits for a CPU on which a trylock runs, and that can move; or for the
      lock of the waiter list; or, on the list, to be granted the semaphore. */
  lemma StuckOnlyBehind(s: State, g: Ghost, t: nat, x: Choice)
    requires Inv(s, g) && TaskIn(s, t) && x.cpu < |s.count| && StepOk(s, t) && Step(s, t, x) == s
    ensures var pc := s.local[t].pc;
            || (pc.ReadInc? && TaskIn(s, s.pinned[x.cpu]) && StepOk(s, s.pinned[x.cpu])
                && Step(s, s.pinned[x.cpu], x) != s)
            || ((pc.LockQueue? || pc.LockWake?) && TaskIn(s, s.queueLock) && s.queueLock != t)
            || (pc.Waiting? && !s.granted[t] && Entry(t, pc.reader) in s.waiters)
  {
    hide SumOk, WakeOk, Apart, Wrap, EntryOk;
    assert TaskOk(s, g, t) && CpuOk(s, g, x.cpu);
    if TaskIn(s, s.pinned[x.cpu]) {
      assert TaskOk(s, g, s.pinned[x.cpu]);
    }
  }

  /** `n` steps of task `t` alone, as long as it can. */
  function Alone(s: State, t: nat, x: Choice, n: nat): (s': State)
    requires Sized(s) && TaskIn(s, t)
    ensures Sized(s') && |s'.local| == |s.local|
    decreases n
  {
    if n == 0 || !StepOk(s, t) then s else Alone(Step(s, t, x), t, x, n - 1)
  }

  /** Nothing is in the way of `t`: the lock of the waiter list is free or its own, no trylock of another
      task is under way, and nobody but `t` blocks readers. */
  ghost predicate Open(s: State, g: Ghost, t: nat) {
    && s.queueLock in {None, t} && (forall i :: 0 <= i < |s.pinned| ==> s.pinned[i] in {None, t})
    && (s.block ==> g.writer == t)
  }

  /** In percpu_down_read, with a trylock that has not failed for good. */
  predicate ReadLocks(pc: Pc) {
    match pc
    case ReadInc(on) => !on.Behalf?
    case ReadCheck(on) => !on.Behalf?
    case ReadDec(on) => on == Direct(false)
    case LockQueue(reader) => reader
    case UnlockQueue(reader, got) => reader && got
    case _ => false
  }

  /** Calls start where they should, a reader's without a trylock when no writer is about. */
  lemma CallsBegin(s: State, t: nat, x: Choice)
    requires Sized(s) && TaskIn(s, t) && StepOk(s, t) && s.local[t].pc.Idle? && x.cpu < |s.count|
    ensures Step(s, t, x).local[t].pc ==
            if x.write then SyncEnter else if s.syncing == {} then Reading else ReadInc(Direct(x.once))
  {
  }

  /** How many steps a reader needs at most. */
  function ReadLeft(pc: Pc): nat {
    match pc
    case ReadInc(on) => if on.Direct? then 2 else 3
    case ReadCheck(on) => if on.Direct? then 1 else 2
    case ReadDec(_) => 5
    case LockQueue(_) => 4
    case UnlockQueue(_, _) => 1
    case _ => 0
  }

  lemma ReadAdvances(s: State, g: Ghost, t: nat, x: Choice)
    requires Inv(s, g) && TaskIn(s, t) && x.cpu < |s.count| && ReadLocks(s.local[t].pc) && Open(s, g, t)
    ensures StepOk(s, t)
    ensures var s' := Step(s, t, x);
            && (s'.local[t].pc.Reading? || ReadLocks(s'.local[t].pc)) && Open(s', Recorded(s, g, t, s', x), t)
            && ReadLeft(s'.local[t].pc) < ReadLeft(s.local[t].pc)
  {
    hide SumOk, WakeOk, Apart, Wrap, EntryOk, WriteStep;
    assert TaskOk(s, g, t) && CpuOk(s, g, x.cpu);
  }

  /** Wherever a reader stands, when no writer is there and no other task interferes it is in after at
      most five steps, and after two by the fast path. */
  lemma {:induction false} ReadAlone(s: State, g: Ghost, t: nat, x: Choice) returns (n: nat)
    requires Inv(s, g) && Small(s) && TaskIn(s, t) && x.cpu < |s.count|
    requires (s.local[t].pc.Reading? || ReadLocks(s.local[t].pc)) && Open(s, g, t)
    ensures n <= ReadLeft(s.local[t].pc) <= 5 && Alone(s, t, x, n).local[t].pc.Reading?
    decreases ReadLeft(s.local[t].pc)
  {
    hide Inv, Step, Open, Small, StepOk, Recorded;
    InvFits(s, g);
    if s.local[t].pc.Reading? {
      n := 0;
    } else {
      ReadAdvances(s, g, t, x);
      StepKeepsInv(s, g, t, x);
      n := ReadAlone(Step(s, t, x), Recorded(s, g, t, Step(s, t, x), x), t, x);
      n := n + 1;
    }
  }

  // ---------------------------------------------------------------------------
  // Writers
  // ---------------------------------------------------------------------------

  /** In percpu_down_write, with a trylock that has not failed for good. */
  predicate WriteLocks(pc: Pc) {
    match pc
    case SyncEnter => true
    case WriteTest(on) => !on.Behalf?
    case WriteXchg(on) => !on.Behalf?
    case LockQueue(reader) => !reader
    case UnlockQueue(reader, got) => !reader && got
    case Summing(_, _) => true
    case _ => false
  }

  /** What a writer in the middle of adding up will have in the end. */
  function Outlook(g: Ghost, cpu: nat): int
    requires cpu <= |g.net|
  {
    g.sum + Sum(g.net[cpu..])
  }

  /** How many steps a writer needs at most when there are no readers. A round of adding up in which
      readers were still there may be in vain, the next is not. */
  ghost function WriteLeft(s: State, g: Ghost, pc: Pc): nat {
    var n := |s.count|;
    match pc
    case SyncEnter => n + 4
    case WriteTest(on) => if on.Direct? then n + 3 else n + 4
    case WriteXchg(on) => if on.Direct? then n + 2 else n + 3
    case LockQueue(_) => n + 5
    case UnlockQueue(_, _) => n + 2
    case Summing(cpu, _) =>
      if cpu > n || n != |g.net| then 0 else n - cpu + 1 + if Outlook(g, cpu) == 0 then 0 else n + 1
    case _ => 0
  }

  /** Adding up one counter. */
  lemma SumAdvances(s: State, g: Ghost, t: nat, x: Choice)
    requires Inv(s, g) && Small(s) && TaskIn(s, t) && s.local[t].pc.Summing? && s.local[t].pc.cpu < |s.count|
    requires Open(s, g, t) && g.readers == {} && StepOk(s, t)
    ensures var s' := Step(s, t, x); var g' := Recorded(s, g, t, s', x);
            && s'.local[t].pc.Summing? && Open(s', g', t) && g'.readers == {}
            && WriteLeft(s', g', s'.local[t].pc) < WriteLeft(s, g, s.local[t].pc)
  {
    hide WakeOk, Apart, Wrap, EntryOk, Sum;
    assert TaskOk(s, g, t);
    SumHead(g.net, s.local[t].pc.cpu);
    assert CpuOk(s, g, s.local[t].pc.cpu);
  }

  /** The end of a round. */
  lemma RoundAdvances(s: State, g: Ghost, t: nat, x: Choice)
    requires Inv(s, g) && Small(s) && TaskIn(s, t) && s.local[t].pc.Summing? && s.local[t].pc.cpu == |s.count|
    requires Open(s, g, t) && g.readers == {} && StepOk(s, t)
    ensures var s' := Step(s, t, x); var g' := Recorded(s, g, t, s', x);
            && (s'.local[t].pc.Writing? || s'.local[t].pc == Summing(0, 0)) && Open(s', g', t) && g'.readers == {}
            && WriteLeft(s', g', s'.local[t].pc) < WriteLeft(s, g, s.local[t].pc)
  {
    hide WakeOk, Apart, Wrap, EntryOk, Sum;
    assert TaskOk(s, g, t);
    SumNone(g.net, |s.count|);
    WrapSmall(0);
    assert g.net[0..] == g.net;
  }

  lemma TryAdvances(s: State, g: Ghost, t: nat, x: Choice)
    requires Inv(s, g) && TaskIn(s, t) && WriteLocks(s.local[t].pc) && !s.local[t].pc.Summing?
    requires Open(s, g, t) && g.readers == {} && StepOk(s, t)
    ensures var s' := Step(s, t, x); var g' := Recorded(s, g, t, s', x);
            && WriteLocks(s'.local[t].pc) && Open(s', g', t) && g'.readers == {}
            && WriteLeft(s', g', s'.local[t].pc) < WriteLeft(s, g, s.local[t].pc)
  {
    hide WakeOk, Apart, Wrap, EntryOk, Sum;
    assert TaskOk(s, g, t);
    assert g.net[0..] == g.net;
  }

  /** The counter where a writer is has been reached in order. */
  lemma SummingIsIn(s: State, g: Ghost, t: nat)
    requires Inv(s, g) && TaskIn(s, t) && s.local[t].pc.Summing?
    ensures s.local[t].pc.cpu <= |s.count|
  {
    hide WakeOk, Apart, Wrap, EntryOk, Sum;
    assert TaskOk(s, g, t);
  }

  /** Wherever a writer stands, when there are no readers and no other task interferes it is in after at
      most two rounds over the counters. */
  lemma {:induction false} WriteAlone(s: State, g: Ghost, t: nat, x: Choice) returns (n: nat)
    requires Inv(s, g) && Small(s) && TaskIn(s, t) && (s.local[t].pc.Writing? || WriteLocks(s.local[t].pc))
    requires Open(s, g, t) && g.readers == {}
    ensures n <= WriteLeft(s, g, s.local[t].pc) <= 2 * |s.count| + 5 && Alone(s, t, x, n).local[t].pc.Writing?
    decreases WriteLeft(s, g, s.local[t].pc)
  {
    hide Inv, Step, Open, Small, StepOk, Recorded;
    InvFits(s, g);
    if s.local[t].pc.Writing? {
      n := 0;
    } else {
      StepIsOk(s, g, t);
      if !s.local[t].pc.Summing? {
        TryAdvances(s, g, t, x);
      } else {
        SummingIsIn(s, g, t);
        if s.local[t].pc.cpu < |s.count| {
          SumAdvances(s, g, t, x);
        } else {
          RoundAdvances(s, g, t, x);
        }
      }
      StepKeepsInv(s, g, t, x);
      n := WriteAlone(Step(s, t, x), Recorded(s, g, t, Step(s, t, x), x), t, x);
      n := n + 1;
    }
  }

  /** A read trylock that finds a writer gives up where a lock call goes on to queue. */
  lemma TryGivesUp(s: State, g: Ghost, t: nat, x: Choice)
    requires Inv(s, g) && TaskIn(s, t) && StepOk(s, t) && s.block
    ensures var pc, pc' := s.local[t].pc, Step(s, t, x).local[t].pc;
            && (pc.ReadCheck? ==> pc' == ReadDec(pc.on))
            && (pc.ReadDec? && pc.on.Direct? ==> pc' == if pc.on.once then Idle else LockQueue(true))
            && (pc.ReadDec? && pc.on.Queued? ==> pc' == Enqueue(true))
            && (pc.WriteTest? || pc.WriteXchg? ==>
                  pc' == if pc.on.Direct? then LockQueue(false)
                         else if pc.on.Queued? then Enqueue(false) else UnlockWake)
  {
    hide SumOk, WakeOk, Apart, Wrap, EntryOk;
    assert TaskOk(s, g, t);
  }

  // ---------------------------------------------------------------------------
  // Unlocking
  // ---------------------------------------------------------------------------

  /** In percpu_up_write. */
  predicate Unlocks(pc: Pc) { pc.Writing? || Wakes(pc) || OnBehalf(pc) || pc.Grant? }

  function UnlockLeft(s: State, pc: Pc): nat {
    var n := 4 * |s.waiters|;
    match pc
    case Writing => n + 5
    case LockWake => n + 4
    case Waking => n + 3
    case ReadInc(_) => n + 2
    case ReadCheck(_) => n + 1
    case ReadDec(_) => 3
    case WriteTest(_) => n + 2
    case WriteXchg(_) => n + 1
    case Grant(_) => n
    case UnlockWake => 2
    case SyncExit => 1
    case _ => 0
  }

  /** Who is done with the list leaves it empty, or the semaphore blocked. */
  predicate Served(s: State, pc: Pc) {
    pc == ReadDec(Behalf) || pc.UnlockWake? || pc.SyncExit? || pc.Idle? ==> s.waiters == [] || s.block
  }

  /** Nothing is in the way of `t` in percpu_up_write. */
  predicate Unhindered(s: State, t: nat) {
    s.queueLock in {None, t} && forall i :: 0 <= i < |s.pinned| ==> s.pinned[i] in {None, t}
  }

  lemma BehalfAdvances(s: State, g: Ghost, t: nat, x: Choice)
    requires Inv(s, g) && TaskIn(s, t) && StepOk(s, t) && x.cpu < |s.count| && OnBehalf(s.local[t].pc)
    requires Unhindered(s, t) && Served(s, s.local[t].pc)
    ensures var s' := Step(s, t, x);
            && Unlocks(s'.local[t].pc) && Unhindered(s', t) && Served(s', s'.local[t].pc)
            && UnlockLeft(s', s'.local[t].pc) < UnlockLeft(s, s.local[t].pc)
  {
    hide SumOk, WakeOk, Apart, Wrap, EntryOk, OwnersOk, RolesOk, QueueStep;
    assert TaskOk(s, g, t) && CpuOk(s, g, x.cpu);
  }

  lemma ReleaseAdvances(s: State, g: Ghost, t: nat, x: Choice)
    requires Inv(s, g) && TaskIn(s, t) && StepOk(s, t) && !OnBehalf(s.local[t].pc)
    requires Unlocks(s.local[t].pc) && Unhindered(s, t) && Served(s, s.local[t].pc)
    ensures var s' := Step(s, t, x);
            && (s'.local[t].pc.Idle? || Unlocks(s'.local[t].pc)) && Unhindered(s', t) && Served(s', s'.local[t].pc)
            && UnlockLeft(s', s'.local[t].pc) < UnlockLeft(s, s.local[t].pc)
  {
    hide SumOk, WakeOk, Apart, Wrap, EntryOk, QueueStep, ReadStep, CpuOk;
    assert TaskOk(s, g, t);
  }

  /** The first waiter is granted the semaphore, and leaves the list; behind a reader the next one is
      looked at, behind a writer none. */
  lemma GrantsInOrder(s: State, g: Ghost, t: nat, x: Choice)
    requires Inv(s, g) && TaskIn(s, t) && StepOk(s, t) && s.local[t].pc.Grant?
    ensures var s' := Step(s, t, x);
            && s'.waiters == s.waiters[1..] && s'.granted == s.granted[s.waiters[0].task := true]
            && s'.local[t].pc == if s.waiters[0].reader then Waking else UnlockWake
  {
    hide SumOk, WakeOk, Apart, Wrap, EntryOk;
    assert TaskOk(s, g, t);
  }

  /** percpu_up_write comes to an end after at most five steps and four for each waiter; by then nobody
      waits for a semaphore that no writer has. */
  lemma {:induction false} UnlockAlone(s: State, g: Ghost, t: nat, x: Choice) returns (n: nat)
    requires Inv(s, g) && Small(s) && TaskIn(s, t) && x.cpu < |s.count|
    requires (s.local[t].pc.Idle? || Unlocks(s.local[t].pc)) && Unhindered(s, t) && Served(s, s.local[t].pc)
    ensures n <= UnlockLeft(s, s.local[t].pc) <= 4 * |s.waiters| + 5
    ensures var s' := Alone(s, t, x, n); s'.local[t].pc.Idle? && (s'.waiters == [] || s'.block)
    decreases UnlockLeft(s, s.local[t].pc)
  {
    hide Inv, Step, Unhindered, Small, StepOk, Recorded;
    InvFits(s, g);
    if s.local[t].pc.Idle? {
      n := 0;
    } else {
      StepIsOk(s, g, t);
      if OnBehalf(s.local[t].pc) {
        BehalfAdvances(s, g, t, x);
      } else {
        ReleaseAdvances(s, g, t, x);
      }
      StepKeepsInv(s, g, t, x);
      n := UnlockAlone(Step(s, t, x), Recorded(s, g, t, Step(s, t, x), x), t, x);
      n := n + 1;
    }
  }

  /** percpu_up_read counts the reader out on the CPU where it happens to run. */
  lemma ReaderLeaves(s: State, g: Ghost, t: nat, x: Choice)
    requires Inv(s, g) && TaskIn(s, t) && StepOk(s, t) && s.local[t].pc.Reading? && x.cpu < |s.count|
    ensures var s' := Step(s, t, x); var g' := Recorded(s, g, t, s', x);
            && s'.local[t].pc.Idle? && g'.readers == g.readers - {t}
            && g'.net == g.net[x.cpu := g.net[x.cpu] - 1]
  {
    hide SumOk, WakeOk, Apart, Wrap, EntryOk;
    assert TaskOk(s, g, t);
  }

  lemma IdleHasNothing(s: State, g: Ghost, t: nat)
    requires Inv(s, g) && TaskIn(s, t) && s.local[t].pc.Idle?
    ensures t !in g.readers && t != g.writer && t != s.queueLock && t !in s.syncing
    ensures forall i :: 0 <= i < |s.waiters| ==> s.waiters[i].task != t
    ensures forall i :: 0 <= i < |s.pinned| ==> s.pinned[i] != t
  {
    hide SumOk, WakeOk, Apart, Wrap;
    assert TaskOk(s, g, t);
    forall i | 0 <= i < |s.waiters| ensures s.waiters[i].task != t {
      assert EntryOk(s, i);
    }
    forall i | 0 <= i < |s.pinned| ensures s.pinned[i] != t {
      assert CpuOk(s, g, i);
    }
  }

  /** When all tasks are done nobody is blocked or queued, and the counters add up to zero. */
  lemma QuietIsFresh(s: State, g: Ghost)
    requires Inv(s, g) && forall t :: TaskIn(s, t) ==> s.local[t].pc.Idle?
    ensures !s.block && s.queueLock == None && s.waiters == []
    ensures forall i :: 0 <= i < |s.count| ==> s.pinned[i] == None && s.count[i] == Wrap(g.net[i])
    ensures Sum(g.net) == 0
  {
    hide Wrap, Sum, Apart, WakeOk, RolesOk, PlaceOk;
    if r: nat :| r in g.readers {
      IdleHasNothing(s, g, r);
    } else if TaskIn(s, g.writer) {
      IdleHasNothing(s, g, g.writer);
    } else if TaskIn(s, s.queueLock) {
      IdleHasNothing(s, g, s.queueLock);
    } else if s.waiters != [] {
      assert EntryOk(s, 0);
      IdleHasNothing(s, g, s.waiters[0].task);
    } else {
      forall i | 0 <= i < |s.count| ensures s.pinned[i] == None && s.count[i] == Wrap(g.net[i]) {
        assert CpuOk(s, g, i);
      }
    }
  }
}
