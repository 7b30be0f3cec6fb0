/** Nobody is stuck in tests/locking/qspinlock_paravirt.h, but for a full table: who a context waits for,
    and that locking, handing over and unlocking come to an end when no other context interferes. */
module PvProgress {

  import opened PvQspinlock

  // ---------------------------------------------------------------------------
  // The pending bit, and who is behind a claimant
  // ---------------------------------------------------------------------------

  /** Between set_pending and the acquisition or clear_pending. */
  predicate Spins(pc: Pc) { pc == Heading(TryLock) || pc == Heading(ClearPending) }

  ghost predicate SpinsAt(v: View, c: int) { CtxIn(v, c) && Spins(v.local[c].pc) }

  /** The pending bit is the queue head's, while it spins. */
  ghost predicate PendOk(v: View) { v.word.pending <==> exists c :: SpinsAt(v, c) }

  /** The last waiter's compare-and-exchange can only fail because of a new tail; and who has not cleared
      the tail is not the last. */
  predicate Behind(v: View, c: int) {
    CtxIn(v, c) ==>
      var me := v.local[c];
      && (me.pc == Claiming(ClaimAll) ==> me.val.tail == c && v.word == me.val.(tail := v.word.tail))
      && (me.pc == Claiming(SetLocked) || me.pc == Claiming(AwaitNext) ==> v.word.tail != c)
  }

  /** Context `h` has passed the queue to `c` and is about to look whether it sleeps. */
  ghost predicate Looks(v: View, h: int, c: int) {
    CtxIn(v, h) && v.local[h].pc == Kicking(KickState) && v.local[h].next == c
  }

  /** A waiter on its way into pv_wait(), and there. */
  predicate Dozes(pc: Pc) { pc == Waiting(Check) || pc == Waiting(Sleep) }

  /** A waiter asleep in pv_wait_node() although it has been passed the queue is not forgotten. */
  ghost predicate Minded(v: View, c: int)
    requires Shaped(v)
  {
    CtxIn(v, c) && Dozes(v.local[c].pc) ==>
      && !v.node[c].state.Running?
      && (v.local[c].pc == Waiting(Sleep) && v.node[c].locked && v.node[c].state.Halted? ==>
            exists h :: Looks(v, h, c))
  }

  ghost predicate Clear(v: View) {
    Shaped(v) && PendOk(v) && (forall c :: Behind(v, c)) && forall c :: Minded(v, c)
  }

  lemma OwnBehind(v: View, g: Ghost, c: nat)
    requires Fits(v, g) && Known(v, g, c) && v.local[c].pc.Claiming? && Behind(v, c)
    requires CtxIn(v, First(g)) ==> HeadOk(v, g, First(g))
    requires First(g) == c
    ensures Behind(ClaimStep(v, c), c)
  {
  }

  /** While a context claims the lock as queue head, the others can only put themselves behind it. */
  lemma OthersAreBehind(v: View, g: Ghost, c: nat, x: Choice, y: nat)
    requires Fits(v, g) && Known(v, g, c) && Known(v, g, y) && c != y && TailOk(v, g) && ByteOk(v, g)
    requires v.local[y].pc.Claiming?
    ensures !Heads(v.local[c].pc) && !Owns(v.local[c].pc)
    ensures var v' := Step(v, c, x);
            v'.word == v.word || (v.local[c].pc.SwapTail? && v'.word == v.word.(tail := c))
  {
  }

  lemma BehindKept(v: View, g: Ghost, c: nat, x: Choice, y: int)
    requires Inv(v, g) && PendOk(v) && CtxIn(v, c) && CtxOk(v, c) && Behind(v, y)
    ensures Behind(Step(v, c, x), y)
  {
    hide TailOk, ByteOk, HolderOk, SlowOk, VcpuOk, Stands, SlotOk, CtxOk, Recorded, Held, Queued, Step, HeadOk, First;
    hide EnterStep, WaitStep, HeadStep, ClaimStep, KickStep, UnlockStep;
    var v' := Step(v, c, x);
    if CtxIn(v, y) {
      SceneHolds(v, g, c);
      SceneHolds(v, g, y);
      StepOf(v, c, x);
      if y != c {
        OwnLocal(v, c, x, y);
        if v.local[y].pc.Claiming? {
          OthersAreBehind(v, g, c, x, y);
        }
      } else if v.local[c].pc.Claiming? {
        FirstIs(v, g, c);
        OwnBehind(v, g, c);
      } else {
        if Spins(v.local[c].pc) { assert SpinsAt(v, c); }
        PendNext(v, c, x);
      }
    }
  }

  /** Program points that Behind says something about. */
  predicate Late(pc: Pc) { pc == Claiming(ClaimAll) || pc == Claiming(SetLocked) || pc == Claiming(AwaitNext) }

  // Where a step leads, and what it does to the pending bit.

  lemma EnterNext(v: View, c: nat, x: Choice)
    requires Shaped(v) && CtxIn(v, c) && Enters(v.local[c].pc)
    ensures var v' := EnterStep(v, c, x);
            !Late(v'.local[c].pc) && !v'.local[c].pc.Heading? && v'.word.pending == v.word.pending
  {
  }

  lemma WaitNext(v: View, c: nat, x: Choice)
    requires Shaped(v) && CtxIn(v, c) && CtxOk(v, c) && Waits(v.local[c].pc)
    ensures var v' := WaitStep(v, c, x);
            !Late(v'.local[c].pc) && !v'.local[c].pc.Heading? && v'.word.pending == v.word.pending
  {
  }

  lemma HeadNext(v: View, c: nat, x: Choice)
    requires Shaped(v) && CtxIn(v, c) && CtxOk(v, c) && Heads(v.local[c].pc)
    requires v.word.pending || !Spins(v.local[c].pc)
    ensures var v' := HeadStep(v, c, x);
            && !Late(v'.local[c].pc)
            && (v'.word.pending <==> Spins(v'.local[c].pc) || (v.word.pending && !Spins(v.local[c].pc)))
            && (Spins(v'.local[c].pc) ==> v.local[c].pc.Heading?)
  {
    hide Insert;
    if Scans(v.local[c].pc) { InsertNext(v, c, Heading(PutNode)); }
  }

  lemma InsertNext(v: View, c: nat, taken: Pc)
    requires Shaped(v) && CtxIn(v, c)
    ensures var v' := Insert(v, c, taken);
            v'.word == v.word && (v'.local[c].pc == taken || v'.local[c].pc == v.local[c].pc)
  {
  }

  lemma ClaimNext(v: View, c: nat)
    requires Shaped(v) && CtxIn(v, c) && CtxOk(v, c) && v.local[c].pc.Claiming? && !v.word.pending
    ensures var v' := ClaimStep(v, c); !v'.local[c].pc.Heading? && !v'.word.pending
  {
  }

  lemma KickNext(v: View, c: nat)
    requires Shaped(v) && CtxIn(v, c) && CtxOk(v, c) && v.local[c].pc.Kicking?
    ensures var v' := KickStep(v, c);
            !Late(v'.local[c].pc) && !v'.local[c].pc.Heading? && v'.word.pending == v.word.pending
  {
    hide Insert;
    if Scans(v.local[c].pc) { InsertNext(v, c, Kicking(KickPut)); }
  }

  lemma UnlockNext(v: View, c: nat)
    requires Shaped(v) && CtxIn(v, c) && CtxOk(v, c) && v.local[c].pc.Holding?
    ensures var v' := UnlockStep(v, c);
            !Late(v'.local[c].pc) && !v'.local[c].pc.Heading? && v'.word.pending == v.word.pending
  {
  }

  /** A step takes the pending bit, keeps it, or gives it back. */
  lemma PendNext(v: View, c: nat, x: Choice)
    requires Shaped(v) && CtxIn(v, c) && CtxOk(v, c) && (v.word.pending || !Spins(v.local[c].pc))
    requires v.local[c].pc.Claiming? ==> !v.word.pending
    ensures var v', spins := Step(v, c, x), Spins(v.local[c].pc);
            && |v'.local| == |v.local| && (!v.local[c].pc.Claiming? ==> !Late(v'.local[c].pc))
            && (v'.word.pending <==> Spins(v'.local[c].pc) || (v.word.pending && !spins))
            && (Spins(v'.local[c].pc) ==> v.local[c].pc.Heading?)
  {
    hide EnterStep, WaitStep, HeadStep, ClaimStep, KickStep, UnlockStep, CtxOk, Step;
    StepOf(v, c, x);
    var pc := v.local[c].pc;
    if Enters(pc) {
      EnterNext(v, c, x);
    } else if Waits(pc) {
      WaitNext(v, c, x);
    } else if Heads(pc) {
      HeadNext(v, c, x);
    } else if pc.Claiming? {
      ClaimNext(v, c);
    } else if pc.Kicking? {
      KickNext(v, c);
    } else {
      UnlockNext(v, c);
    }
  }

  lemma SpinnerIsFirst(v: View, g: Ghost, c: int)
    requires Fits(v, g) && CtxIn(v, c) && Queued(v, g, c) && v.local[c].pc.Heading?
    ensures First(g) == c
  {
  }

  /** Nobody spins while the head claims the lock. */
  lemma ClaimerIsAlone(v: View, g: Ghost, c: nat)
    requires Inv(v, g) && PendOk(v) && CtxIn(v, c) && v.local[c].pc.Claiming?
    ensures !v.word.pending
  {
    hide TailOk, ByteOk, TableOk, VcpuOk, Stands, SlotOk, CtxOk, Held, Queued, First;
    if y :| SpinsAt(v, y) {
      SceneHolds(v, g, y);
      SceneHolds(v, g, c);
      SpinnerIsFirst(v, g, y);
      FirstIs(v, g, c);
    }
  }

  lemma PendKept(v: View, g: Ghost, c: nat, x: Choice)
    requires Inv(v, g) && PendOk(v) && CtxIn(v, c) && CtxOk(v, c)
    ensures PendOk(Step(v, c, x))
  {
    hide TailOk, ByteOk, TableOk, VcpuOk, Stands, SlotOk, CtxOk, Recorded, Held, Queued, Step, First;
    var v' := Step(v, c, x);
    SceneHolds(v, g, c);
    if Spins(v.local[c].pc) { assert SpinsAt(v, c); }
    if v.local[c].pc.Claiming? { ClaimerIsAlone(v, g, c); }
    PendNext(v, c, x);
    if v'.word.pending {
      if Spins(v'.local[c].pc) {
        assert SpinsAt(v', c);
      } else {
        var y :| SpinsAt(v, y);
        OwnLocal(v, c, x, y);
        assert SpinsAt(v', y);
      }
    } else if y :| SpinsAt(v', y) {
      assert y != c;
      OwnLocal(v, c, x, y);
      assert SpinsAt(v, y);
      SceneHolds(v, g, y);
      SpinnerIsFirst(v, g, y);
      SpinnerIsFirst(v, g, c);
    }
  }

  /** What a step does to the node of another context. */
  lemma NodeWrites(v: View, c: nat, x: Choice, y: nat)
    requires Shaped(v) && CtxIn(v, c) && CtxOk(v, c) && CtxIn(v, y) && y != c
    ensures var v', me := Step(v, c, x), v.local[c];
            && |v'.node| == |v.node| && |v'.local| == |v.local|
            && (Looks(v, c, y) ==> !v'.node[y].state.Halted?)
            && (v'.node[y].state.Halted? ==> v.node[y].state.Halted?)
            && (v'.node[y].state.Running? ==> v.node[y].state.Running?)
            && (v'.node[y].locked ==> v.node[y].locked || Looks(v', c, y))
  {
  }

  lemma MindedKept(v: View, g: Ghost, c: nat, x: Choice, y: int)
    requires Inv(v, g) && CtxIn(v, c) && CtxOk(v, c) && Minded(v, y)
    ensures Shaped(Step(v, c, x)) && Minded(Step(v, c, x), y)
  {
    hide TailOk, ByteOk, TableOk, Known, Stands, SlotOk, CtxOk, Step;
    var v' := Step(v, c, x);
    if CtxIn(v, y) && Dozes(v'.local[y].pc) {
      if y == c {
        OwnDoze(v, c, x);
      } else {
        OwnLocal(v, c, x, y);
        NodeWrites(v, c, x, y);
      }
      if v'.local[y].pc == Waiting(Sleep) && v'.node[y].locked && v'.node[y].state.Halted? && !Looks(v', c, y) {
        var h :| Looks(v, h, y);
        OwnLocal(v, c, x, h);
        assert Looks(v', h, y);
      }
    }
  }

  /** A waiter goes to sleep only when it has not been passed the queue. */
  lemma OwnDoze(v: View, c: nat, x: Choice)
    requires Shaped(v) && CtxIn(v, c) && CtxOk(v, c) && Dozes(Step(v, c, x).local[c].pc)
    ensures var v' := Step(v, c, x);
            && (v'.local[c].pc == Waiting(Check) ==> v'.node[c].state.Halted?)
            && (v'.local[c].pc == Waiting(Sleep) ==>
                  v'.node == v.node && Dozes(v.local[c].pc)
                  && if v.local[c].pc == Waiting(Check) then !v.node[c].locked else v' == v)
  {
    hide Step, CtxOk, EnterStep, HeadStep, ClaimStep, KickStep, UnlockStep;
    StepOf(v, c, x);
    if !Waits(v.local[c].pc) {
      OthersWakeUp(v, c, x);
    }
  }

  /** Only pv_wait_node() leads into pv_wait() on the own state. */
  lemma OthersWakeUp(v: View, c: nat, x: Choice)
    requires Shaped(v) && CtxIn(v, c) && CtxOk(v, c) && !Waits(v.local[c].pc)
    ensures !Dozes(Step(v, c, x).local[c].pc)
  {
    hide Insert;
    if Scans(v.local[c].pc) {
      InsertNext(v, c, if v.local[c].pc.Heading? then Heading(PutNode) else Kicking(KickPut));
    }
  }

  lemma StepKeepsClear(v: View, g: Ghost, c: nat, x: Choice)
    requires Inv(v, g) && Clear(v) && CtxIn(v, c) && CtxOk(v, c)
    ensures Clear(Step(v, c, x))
  {
    hide TailOk, ByteOk, TableOk, Known, Stands, SlotOk, PendOk, Behind, Step, CtxOk;
    PendKept(v, g, c, x);
    forall y ensures Behind(Step(v, c, x), y) {
      BehindKept(v, g, c, x, y);
    }
    forall y ensures Minded(Step(v, c, x), y) {
      MindedKept(v, g, c, x, y);
    }
  }

  lemma OtherSlotsClear(v: View, v': View)
    requires Clear(v) && Shaped(v') && v'.word == v.word && v'.local == v.local && v'.node == v.node
    ensures Clear(v')
  {
    hide Spins;
    forall c ensures Minded(v', c) {
      assert Minded(v, c);
      if h :| Looks(v, h, c) { assert Looks(v', h, c); }
    }
    forall c ensures Behind(v', c) {
      assert Behind(v, c);
    }
    forall c ensures SpinsAt(v', c) <==> SpinsAt(v, c) {
    }
  }

  lemma InitClear(s: System, l: nat)
    requires Init(s) && l < |s.word|
    ensures Clear(Look(s, l))
  {
  }

  lemma StepLooks(s: System, t: System, l: nat, c: nat, x: Choice, m: nat)
    requires NextAt(s, t, l, c, x) && m < |s.word|
    ensures m < |t.word| && Whole(t)
    ensures if l == m then Look(t, m) == Step(Look(s, m), c, x)
            else Look(t, m).word == Look(s, m).word && Look(t, m).local == Look(s, m).local
                 && Look(t, m).node == Look(s, m).node
  {
    hide Step, CtxOk;
  }

  /** In every run, for every lock. */
  lemma {:induction false} RunKeepsClear(run: seq<System>, i: nat, l: nat) returns (g: Ghost)
    requires Run(run) && i < |run| && l < |run[i].word|
    ensures Whole(run[i]) && Inv(Look(run[i], l), g) && Clear(Look(run[i], l))
  {
    hide Inv, Clear, Init, NextAt;
    g := RunView(run, i, l);
    if i == 0 {
      InitClear(run[0], l);
    } else {
      assert Next(run[i - 1], run[i - 1 + 1]);
      var m: nat, c: nat, x :| NextAt(run[i - 1], run[i], m, c, x);
      SameLocks(run[i - 1], run[i], m, c, x);
      var g0 := RunKeepsClear(run, i - 1, l);
      StepLooks(run[i - 1], run[i], m, c, x, l);
      if m == l {
        Enabled(run[i - 1], run[i], m, c, x);
        StepKeepsClear(Look(run[i - 1], l), g0, c, x);
      } else {
        OtherSlotsClear(Look(run[i - 1], l), Look(run[i], l));
      }
    }
  }

  /** The order of accesses that both sides rely on: a waiter sets its state and then looks whether it has
      been passed the queue, the holder passes it the queue and then looks at its state. So a waiter that
      sleeps all the same is one that the holder will look at, or has advanced to hashed. */
  lemma NoWaiterForgotten(run: seq<System>, i: nat, l: nat, c: nat) returns (h: nat)
    requires Run(run) && i < |run| && l < |run[i].word| && Whole(run[i]) && c < |run[i].local[l]|
    requires run[i].local[l][c].pc == Waiting(Sleep) && run[i].node[l][c].locked
    ensures run[i].node[l][c].state.Hashed?
            || (h < |run[i].local[l]| && run[i].local[l][h].pc == Kicking(KickState) && run[i].local[l][h].next == c)
  {
    hide Inv, PendOk, Behind;
    var v := Look(run[i], l);
    var g := RunKeepsClear(run, i, l);
    assert Minded(v, c);
    h := 0;
    if v.node[c].state.Halted? {
      h :| Looks(v, h, c);
    }
  }

  lemma PassedIsFirst(v: View, g: Ghost, c: nat)
    requires Fits(v, g) && CtxIn(v, c) && Queued(v, g, c) && v.local[c].pc.Waiting? && v.node[c].locked
    ensures First(g) == c
  {
  }

  /** Nor is it forgotten after that: while the locked byte is _Q_SLOW_VAL its entry is in the table, or
      the holder that makes or has just taken it is on its way to the release. */
  lemma PassedIsAnnounced(run: seq<System>, i: nat, l: nat, c: nat) returns (h: nat)
    requires Run(run) && i < |run| && l < |run[i].word| && Whole(run[i]) && c < |run[i].local[l]|
    requires run[i].local[l][c].pc == Waiting(Sleep) && run[i].node[l][c].locked && run[i].word[l].locked.Slow?
    ensures h < |run[i].local[l]| && Owns(run[i].local[l][h].pc)
    ensures var pc := run[i].local[l][h].pc;
            || pc == Kicking(KickScan) || pc == Kicking(KickPut) || pc == Holding(FreeByte)
            || exists j :: 0 <= j < |run[i].slots| && run[i].slots[j] == Slot(l, c)
  {
    hide CtxOk, VcpuOk, Probe, Run;
    var g := RunView(run, i, l);
    var v := Look(run[i], l);
    h := g.holder;
    assert Known(v, g, c) && Known(v, g, h);
    PassedIsFirst(v, g, c);
    FirstIs(v, g, h);
    assert Published(v, g) ==> v.slots[g.entry] == Slot(l, c);
  }

  lemma SameLocks(s: System, t: System, l: nat, c: nat, x: Choice)
    requires NextAt(s, t, l, c, x)
    ensures |t.word| == |s.word|
  {
    hide Step, CtxOk;
  }

  lemma Enabled(s: System, t: System, l: nat, c: nat, x: Choice)
    requires NextAt(s, t, l, c, x)
    ensures CtxIn(Look(s, l), c) && CtxOk(Look(s, l), c)
  {
    hide Step;
  }

  // ---------------------------------------------------------------------------
  // Nobody is stuck
  // ---------------------------------------------------------------------------

  /** The context behind `c` in the queue. */
  ghost function After(g: Ghost, c: nat): int
    requires c < |g.place|
  {
    At(g, g.place[c] + 1)
  }

  /** A claimant that waits for a link waits for a context that is about to make it. */
  lemma LinkIsComing(v: View, g: Ghost, c: nat)
    requires Inv(v, g) && Behind(v, c) && CtxIn(v, c)
    requires v.local[c].pc == Claiming(AwaitNext) && v.node[c].next == None
    ensures CtxIn(v, After(g, c)) && v.local[After(g, c)].pc.Link? && v.local[After(g, c)].prev == c
    ensures CtxOk(v, After(g, c)) && forall x :: Step(v, After(g, c), x).node[c].next == After(g, c)
  {
    hide ByteOk, TableOk, VcpuOk, SlotOk, Held;
    assert Known(v, g, c) && Stands(v, g, g.place[c] + 1);
    assert Known(v, g, After(g, c));
  }

  /** pv_unhash does not run out of slots. */
  lemma EntryIsAhead(v: View, g: Ghost, c: nat) returns (k: nat)
    requires Inv(v, g) && CtxIn(v, c) && v.local[c].pc == Holding(UnScan)
    ensures v.local[c].off <= k < |v.slots| && v.slots[Probe(v.base, |v.slots|, k)].lock == v.lock
  {
    hide CtxOk, VcpuOk, Stands, Probe, SlotOk;
    assert Known(v, g, c);
    k := ProbeCovers(v.base, |v.slots|, g.entry);
  }

  lemma HolderIsNotFree(v: View, g: Ghost, c: nat)
    requires Inv(v, g) && CtxIn(v, c) && v.local[c].pc.Holding?
    ensures !v.word.locked.Free?
  {
    hide CtxOk, VcpuOk, Stands, SlotOk, Queued, TableOk;
    assert Known(v, g, c);
  }

  /** A context that cannot move, whatever it decides, waits for the link from its successor, which is
      about to make it, or has run out of slots. */
  lemma StuckOnlyBehind(v: View, g: Ghost, c: nat)
    requires Inv(v, g) && Clear(v) && CtxIn(v, c) && CtxOk(v, c)
    requires Step(v, c, Choice(true, true)) == v && Step(v, c, Choice(true, false)) == v
    ensures
      || (v.local[c].pc == Claiming(AwaitNext) && CtxIn(v, After(g, c)) && v.local[After(g, c)].pc.Link?)
      || (Scans(v.local[c].pc) && v.local[c].off >= |v.slots|)
  {
    hide TailOk, ByteOk, TableOk, VcpuOk, Stands, SlotOk, Held, Queued, CtxOk, Step, PendOk;
    assert Behind(v, c);
    if v.local[c].pc == Holding(UnScan) {
      var k := EntryIsAhead(v, g, c);
    } else if v.local[c].pc.Holding? {
      HolderIsNotFree(v, g, c);
    }
    Stutters(v, c);
    if v.local[c].pc == Claiming(AwaitNext) {
      LinkIsComing(v, g, c);
    }
  }

  /** Where a step can leave everything as it was. */
  lemma Stutters(v: View, c: nat)
    requires Shaped(v) && CtxIn(v, c) && CtxOk(v, c)
    requires Step(v, c, Choice(true, true)) == v && Step(v, c, Choice(true, false)) == v
    ensures var me := v.local[c];
            || (me.pc == Claiming(AwaitNext) && v.node[c].next == None)
            || (Scans(me.pc) && me.off >= |v.slots|) || (me.pc == Holding(UnScan) && me.off >= |v.slots|)
            || (me.pc == Holding(Release) && v.word.locked.Free?)
  {
  }

  // ---------------------------------------------------------------------------
  // Undisturbed
  // ---------------------------------------------------------------------------

  /** Going on with what is being tried. */
  const Go := Choice(true, true)

  /** `n` steps of context `c` alone, as long as pointers are pointers. */
  function Alone(v: View, c: nat, n: nat): (v': View)
    requires Shaped(v) && CtxIn(v, c)
    ensures SameSizes(v, v')
    decreases n
  {
    if n == 0 || !CtxOk(v, c) then v else Alone(Step(v, c, Go), c, n - 1)
  }

  /** A slot from the `off`-th of the probe sequence on is free. */
  ghost predicate Room(v: View, off: nat)
    requires Shaped(v)
  {
    exists k :: off <= k < |v.slots| && v.slots[Probe(v.base, |v.slots|, k)].lock == None
  }

  /** In the lock function, without having got the lock. */
  predicate Locking(pc: Pc) { pc.Idle? || pc.Fast? || Tries(pc) || Waits(pc) || Heads(pc) }

  /** Nobody has the lock; nobody is queued before the context, which if it waits has been told so; and
      there is room in the table. */
  ghost predicate Open(v: View, c: nat)
    requires Shaped(v) && CtxIn(v, c)
  {
    var me := v.local[c];
    && v.word.locked.Free? && (me.pc.Waiting? ==> v.node[c].locked) && !me.pc.Link?
    && (!InQueue(me.pc) ==> v.word == Zero)
    && (me.pc == Heading(TryLock) ==> v.word.pending)
    && (me.pc == Heading(ClearPending) && me.lp.NotYet? ==> Room(v, 0)) && (me.pc == Heading(Scan) ==> Room(v, me.off))
  }

  function LockLeft(v: View, me: Local): nat {
    var n := |v.slots|;
    match me.pc
    case Idle => 2
    case Fast => 1
    case StealRead(_) => 2
    case StealCas(_) => if !me.val.pending && me.val.locked.Free? then 1 else 6
    case SwapTail => 5
    case Waiting(w) => (match w case Spin => 6 case Halt => 9 case Check => 8 case Sleep => 8 case Unhalt => 7)
    case LoadNext => 5
    case ReadState => 4
    case Heading(h) =>
      (match h case MarkRunning => 3 case SetPending => 2 case TryLock => 1 case ClearPending => n + 6
               case Scan => if me.off <= n then 3 + n - me.off else 3
               case PutNode => 2 case Exchange => 1 case MarkHashed => 5 case Wait => 4)
    case _ => 0
  }

  lemma TryAdvances(v: View, c: nat)
    requires Shaped(v) && CtxIn(v, c) && CtxOk(v, c) && Open(v, c)
    requires v.local[c].pc.Idle? || v.local[c].pc.Fast? || Tries(v.local[c].pc)
    ensures var v' := EnterStep(v, c, Go);
            && Shaped(v') && CtxIn(v', c)
            && (Owns(v'.local[c].pc) || (Locking(v'.local[c].pc) && Open(v', c)
                                         && LockLeft(v', v'.local[c]) < LockLeft(v, v.local[c])))
  {
  }

  lemma WaitAdvances(v: View, c: nat)
    requires Shaped(v) && CtxIn(v, c) && CtxOk(v, c) && Open(v, c) && Waits(v.local[c].pc)
    ensures var v' := WaitStep(v, c, Go);
            && Shaped(v') && CtxIn(v', c)
            && Locking(v'.local[c].pc) && Open(v', c) && LockLeft(v', v'.local[c]) < LockLeft(v, v.local[c])
  {
  }

  /** A probe takes a free slot, or leaves it for the probes to come. */
  lemma InsertAdvances(v: View, c: nat, taken: Pc)
    requires Shaped(v) && CtxIn(v, c) && Room(v, v.local[c].off)
    ensures var v', me := Insert(v, c, taken), v.local[c];
            && v'.word == v.word && v'.node == v.node && |v'.slots| == |v.slots| && me.off < |v.slots|
            && (v'.local[c].pc == taken
                || (v'.local[c] == me.(off := me.off + 1) && v'.slots == v.slots && Room(v', me.off + 1)))
  {
    hide Probe;
    var k :| v.local[c].off <= k < |v.slots| && v.slots[Probe(v.base, |v.slots|, k)].lock == None;
  }

  lemma HeadAdvances(v: View, c: nat)
    requires Shaped(v) && CtxIn(v, c) && CtxOk(v, c) && Open(v, c) && Heads(v.local[c].pc)
    ensures var v' := HeadStep(v, c, Go);
            && Shaped(v') && CtxIn(v', c)
            && (Owns(v'.local[c].pc) || (Locking(v'.local[c].pc) && Open(v', c)
                                         && LockLeft(v', v'.local[c]) < LockLeft(v, v.local[c])))
  {
    hide Probe, Insert, Room;
    if Scans(v.local[c].pc) {
      InsertAdvances(v, c, Heading(PutNode));
    } else if v.local[c].pc == Heading(ClearPending) && v.local[c].lp.NotYet? {
      SameRoom(v, HeadStep(v, c, Go), 0);
    }
  }

  lemma SameRoom(v: View, v': View, off: nat)
    requires Shaped(v) && Shaped(v') && v'.slots == v.slots && v'.base == v.base && Room(v, off)
    ensures Room(v', off)
  {
  }

  /** Wherever a context stands, on a lock that nobody has or is queued for before it, it gets the lock
      after at most nine steps and the probes of one search. */
  lemma {:induction false} LockAlone(v: View, g: Ghost, c: nat) returns (n: nat)
    requires Inv(v, g) && CtxIn(v, c) && (Owns(v.local[c].pc) || (Locking(v.local[c].pc) && Open(v, c)))
    ensures n <= LockLeft(v, v.local[c]) <= |v.slots| + 9 && Owns(Alone(v, c, n).local[c].pc)
    decreases LockLeft(v, v.local[c])
  {
    hide TailOk, ByteOk, TableOk, Known, Stands, SlotOk, CtxOk, Step, Open;
    hide EnterStep, WaitStep, HeadStep, ClaimStep, KickStep, UnlockStep;
    if Owns(v.local[c].pc) {
      n := 0;
    } else {
      SceneHolds(v, g, c);
      StepOf(v, c, Go);
      if Waits(v.local[c].pc) {
        WaitAdvances(v, c);
      } else if Heads(v.local[c].pc) {
        HeadAdvances(v, c);
      } else {
        TryAdvances(v, c);
      }
      StepKeepsInv(v, g, c, Go);
      n := LockAlone(Step(v, c, Go), Recorded(v, g, c, Step(v, c, Go)), c);
      n := n + 1;
    }
  }

  /** A contender steals the lock exactly when the locked byte is free, and was when it looked, with no
      pending bit beside it; it takes the byte and leaves the rest of the word. Otherwise it queues if it
      has a node, unless it saw a queue whose head was not at the lock: then it goes on trying. */
  lemma StealDecides(v: View, c: nat, x: Choice)
    requires Shaped(v) && CtxIn(v, c) && v.local[c].pc.StealCas? && CtxOk(v, c)
    ensures var me, v' := v.local[c], Step(v, c, x);
            var steals := !me.val.pending && me.val.locked.Free? && v.word.locked.Free?;
            && v'.word == (if steals then v.word.(locked := Taken) else v.word)
            && (Owns(v'.local[c].pc) <==> steals)
            && (!steals ==>
                  v'.local[c].pc == if me.pc.queued && (me.val.tail == None || me.val.pending) then SwapTail
                                    else StealRead(me.pc.queued))
  {
  }

  /** A waiter leaves the spin exactly when it has been passed the queue or is told to halt, and goes to
      sleep exactly when it still has not been passed the queue once its state says that it is halted. */
  lemma WaitDecides(v: View, c: nat, x: Choice)
    requires Shaped(v) && CtxIn(v, c) && v.local[c].pc.Waiting? && CtxOk(v, c)
    ensures var pc, v', passed := v.local[c].pc, Step(v, c, x), v.node[c].locked;
            && (pc == Waiting(Spin) ==>
                  v'.local[c].pc == if passed then LoadNext else if x.go then pc else Waiting(Halt))
            && (pc == Waiting(Check) ==> (v'.local[c].pc == Waiting(Sleep) <==> !passed))
            && (pc == Waiting(Sleep) ==> (v'.local[c].pc == pc <==> !x.go))
  {
  }

  // From the acquisition to the critical section: the queue is handed over.

  /** Nobody is behind, or somebody is and has linked itself; and there is room in the table. */
  ghost predicate Ready(v: View, c: nat)
    requires Shaped(v) && CtxIn(v, c)
  {
    var me := v.local[c];
    && (me.pc.Claiming? && me.pc != Claiming(HandOver) ==> v.word.tail == c || v.node[c].next != None)
    && (me.pc != Kicking(KickPut) ==> Room(v, if me.pc == Kicking(KickScan) then me.off else 0))
  }

  function ClaimLeft(v: View, me: Local): nat {
    var n := |v.slots|;
    match me.pc
    case Claiming(c) =>
      (match c case MarkTaken => n + 12 case Unenter => n + 11 case ReadWord => n + 10 case ClaimAll => n + 9
               case SetLocked => n + 8 case AwaitNext => n + 7 case HandOver => n + 6)
    case Kicking(k) =>
      (match k case KickState => n + 5 case MarkSlow => n + 4
               case KickScan => if me.off <= n then 2 + n - me.off else 2
               case KickPut => 1)
    case _ => 0
  }

  lemma ClaimAdvances(v: View, c: nat)
    requires Shaped(v) && CtxIn(v, c) && CtxOk(v, c) && Ready(v, c) && v.local[c].pc.Claiming? && Behind(v, c)
    ensures var v' := ClaimStep(v, c);
            && Shaped(v') && CtxIn(v', c)
            && (v'.local[c].pc == Holding(Release)
                || ((v'.local[c].pc.Claiming? || v'.local[c].pc.Kicking?) && Ready(v', c)
                    && ClaimLeft(v', v'.local[c]) < ClaimLeft(v, v.local[c])))
  {
    hide Probe;
    var k :| 0 <= k < |v.slots| && v.slots[Probe(v.base, |v.slots|, k)].lock == None;
    assert ClaimStep(v, c).slots[Probe(v.base, |v.slots|, k)].lock == None;
  }

  lemma KickAdvances(v: View, c: nat)
    requires Shaped(v) && CtxIn(v, c) && CtxOk(v, c) && Ready(v, c) && v.local[c].pc.Kicking?
    ensures var v' := KickStep(v, c);
            && Shaped(v') && CtxIn(v', c)
            && (v'.local[c].pc == Holding(Release)
                || (v'.local[c].pc.Kicking? && Ready(v', c)
                    && ClaimLeft(v', v'.local[c]) < ClaimLeft(v, v.local[c])))
  {
    hide Probe, Insert, Room;
    if Scans(v.local[c].pc) {
      InsertAdvances(v, c, Kicking(KickPut));
    } else if v.local[c].pc == Kicking(KickState) || v.local[c].pc == Kicking(MarkSlow) {
      SameRoom(v, KickStep(v, c), 0);
    }
  }

  /** A context that has got the lock from the queue is in its critical section after at most twelve
      steps and the probes of one search, its successor having been told and, if asleep, announced. */
  lemma {:induction false} ClaimAlone(v: View, g: Ghost, c: nat) returns (n: nat)
    requires Inv(v, g) && Clear(v) && CtxIn(v, c)
    requires v.local[c].pc == Holding(Release)
             || ((v.local[c].pc.Claiming? || v.local[c].pc.Kicking?) && Ready(v, c))
    ensures n <= ClaimLeft(v, v.local[c]) <= |v.slots| + 12 && Alone(v, c, n).local[c].pc == Holding(Release)
    decreases ClaimLeft(v, v.local[c])
  {
    hide TailOk, ByteOk, TableOk, Known, Stands, SlotOk, CtxOk, Step, Ready, Behind, PendOk;
    hide EnterStep, WaitStep, HeadStep, ClaimStep, KickStep, UnlockStep;
    if v.local[c].pc == Holding(Release) {
      n := 0;
    } else {
      SceneHolds(v, g, c);
      StepOf(v, c, Go);
      assert Behind(v, c);
      if v.local[c].pc.Claiming? {
        ClaimAdvances(v, c);
      } else {
        KickAdvances(v, c);
      }
      StepKeepsInv(v, g, c, Go);
      StepKeepsClear(v, g, c, Go);
      n := ClaimAlone(Step(v, c, Go), Recorded(v, g, c, Step(v, c, Go)), c);
      n := n + 1;
    }
  }

  // Unlocking.

  function UnlockLeft(v: View, me: Local): nat {
    var n := |v.slots|;
    match me.pc
    case Holding(h) =>
      (match h case Release => n + 6 case UnScan => if me.off <= n then 4 + n - me.off else 4
               case UnNode => 3 case UnClear => 2 case FreeByte => 1)
    case _ => 0
  }

  lemma UnlockAdvances(v: View, g: Ghost, c: nat)
    requires Inv(v, g) && CtxIn(v, c) && CtxOk(v, c) && v.local[c].pc.Holding?
    ensures var v' := UnlockStep(v, c);
            && Shaped(v') && CtxIn(v', c)
            && ((v'.local[c].pc.Idle? && v'.word == v.word.(locked := Free))
                || (v'.local[c].pc.Holding? && v'.word == v.word
                    && UnlockLeft(v', v'.local[c]) < UnlockLeft(v, v.local[c])))
  {
    hide TailOk, ByteOk, TableOk, VcpuOk, Stands, SlotOk, Held, Queued, Probe;
    HolderIsNotFree(v, g, c);
    if v.local[c].pc == Holding(UnScan) {
      var k := EntryIsAhead(v, g, c);
    }
  }

  /** An unlock ends after at most six steps and the probes of one search, and frees the lock. */
  lemma {:induction false} UnlockAlone(v: View, g: Ghost, c: nat) returns (n: nat)
    requires Inv(v, g) && CtxIn(v, c) && v.local[c].pc.Holding?
    ensures n <= UnlockLeft(v, v.local[c]) <= |v.slots| + 6
    ensures Alone(v, c, n).local[c].pc.Idle? && Alone(v, c, n).word == v.word.(locked := Free)
    decreases UnlockLeft(v, v.local[c])
  {
    hide TailOk, ByteOk, TableOk, Known, Stands, SlotOk, CtxOk, Step;
    hide EnterStep, WaitStep, HeadStep, ClaimStep, KickStep, UnlockStep;
    SceneHolds(v, g, c);
    StepOf(v, c, Go);
    UnlockAdvances(v, g, c);
    var v1 := Step(v, c, Go);
    assert Alone(v1, c, 0) == v1;
    if v1.local[c].pc.Idle? {
      n := 1;
      assert Alone(v, c, 1) == Alone(v1, c, 0);
    } else {
      StepKeepsInv(v, g, c, Go);
      n := UnlockAlone(v1, Recorded(v, g, c, v1), c);
      n := n + 1;
    }
  }

  lemma HolderIsBusy(v: View, g: Ghost)
    requires Inv(v, g)
    ensures CtxIn(v, g.holder) ==> Owns(v.local[g.holder].pc)
    ensures g.holder == None ==> v.word.locked.Free?
  {
    hide CtxOk, VcpuOk, Stands, SlotOk, Queued, TableOk;
    if CtxIn(v, g.holder) {
      assert Known(v, g, g.holder);
    }
  }

  /** When all contexts of a lock are done the word is zero and the table has no entry for it. */
  lemma QuietIsZero(v: View, g: Ghost)
    requires Inv(v, g) && Clear(v) && v.lock != None && forall c :: CtxIn(v, c) ==> v.local[c].pc.Idle?
    ensures v.word == Zero && forall j :: 0 <= j < |v.slots| ==> v.slots[j].lock != v.lock
  {
    hide CtxOk, VcpuOk, SlotOk, Probe, TableOk, Behind;
    forall j | 0 <= j < |v.slots| ensures v.slots[j].lock != v.lock {
      if v.slots[j].lock == v.lock {
        var c := EntryHasContext(v, g, j);
      }
    }
    assert Stands(v, g, |g.line| - 1);
    HolderIsBusy(v, g);
  }
}
