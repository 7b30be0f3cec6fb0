/** The reader/writer base of PREEMPT_RT, tests/locking/rwbase_rt.c: one atomic counter whose sign
    tells readers whether they may take the fast path, and an rtmutex that writers hold.

    One transition is one access to shared memory. Any number of tasks. The rtmutex is a lock that
    one task owns, with the spin lock `wait_lock` inside. READER_BIAS and WRITER_BIAS are defined in
    a header that is not part of this model: any two numbers that the readers cannot close in on. */
module RwbaseRt {

  const None := -1

  /** The values of READER_BIAS and WRITER_BIAS as the counter sees them. */
  datatype Bias = Bias(reader: int, writer: int)

  // Program points.

  /** rwbase_read_lock, or rwbase_read_trylock alone: `once`. */
  datatype ReadPc =
    | Load(once: bool) | Cas(once: bool, r: int)
    | WaitLock | Slow | Blocked | Inc | Unlock(got: bool) | RtUnlock

  /** __rwbase_read_unlock: find the writer, and wake it. */
  datatype WakePc = Lock | Find | Drop(owner: int) | Wake(owner: int)

  /** rwbase_write_lock or rwbase_write_trylock (`once`), up to the WRITER_BIAS. */
  datatype DrainPc =
    | WaitLock(once: bool) | Test(once: bool) | SetState | Signal | Retest | Sleep | Asleep | Relock
    | Mark
    | Undo

  /** The writer, from the WRITER_BIAS on. */
  datatype WritePc = Unlock | Inside | Lock(down: bool) | Release(down: bool)

  datatype Pc =
    | Idle
    | Entering(read: ReadPc)
    | Reading | Waking(wake: WakePc)
    | RtLock(once: bool) | SubBias(once: bool)
    | Draining(drain: DrainPc)
    | Writing(write: WritePc)
    // __rwbase_write_unlock, after the counter; the task may have become a reader.
    | Dropping(reader: bool) | RtUnlocking(reader: bool)

  /** `owner` is the owner of the rtmutex, `waitLock` who holds its wait_lock; `asleep[t]` says that
      `t` has set its state for schedule() and not been woken since. */
  datatype State = State(readers: int, owner: int, waitLock: int, asleep: seq<bool>, pc: seq<Pc>)

  /** What the environment decides: to write, to only try, and whether a signal comes or the task
      wakes up on its own. */
  datatype Choice = Choice(write: bool, once: bool, signal: bool)

  predicate TaskIn(s: State, t: int) { 0 <= t < |s.pc| }

  ghost predicate Sized(s: State) { |s.asleep| == |s.pc| }

  // ---------------------------------------------------------------------------
  // Transitions
  // ---------------------------------------------------------------------------

  function Goto(s: State, t: nat, pc: Pc): State
    requires t < |s.pc|
  {
    s.(pc := s.pc[t := pc])
  }

  /** rwbase_read_trylock goes on with `r` as long as the bias is there. */
  function Tried(once: bool, r: int): Pc {
    if r < 0 then Entering(Cas(once, r)) else if once then Idle else Entering(ReadPc.WaitLock)
  }

  function ReadStep(s: State, t: nat, x: Choice): (s': State)
    requires Sized(s) && t < |s.pc|
    ensures Sized(s') && |s'.pc| == |s.pc|
  {
    match s.pc[t]
    case Idle => Goto(s, t, if x.write then RtLock(x.once) else Entering(Load(x.once)))
    case Entering(Load(once)) => Goto(s, t, Tried(once, s.readers))
    case Entering(Cas(once, r)) =>
      if s.readers == r then Goto(s.(readers := r + 1), t, Reading) else Goto(s, t, Tried(once, s.readers))
    case Entering(WaitLock) => if s.waitLock == None then Goto(s.(waitLock := t), t, Entering(Slow)) else s
    // rwbase_rtmutex_slowlock_locked: drops wait_lock while it blocks.
    case Entering(Slow) =>
      if s.owner == None then Goto(s.(owner := t), t, Entering(Inc))
      else if x.signal then Goto(s, t, Entering(ReadPc.Unlock(false)))
      else Goto(s.(waitLock := None), t, Entering(Blocked))
    case Entering(Blocked) => if s.waitLock == None then Goto(s.(waitLock := t), t, Entering(Slow)) else s
    case Entering(Inc) => Goto(s.(readers := s.readers + 1), t, Entering(ReadPc.Unlock(true)))
    case Entering(Unlock(got)) => Goto(s.(waitLock := None), t, if got then Entering(RtUnlock) else Idle)
    case Entering(RtUnlock) => Goto(s.(owner := None), t, Reading)
    case Reading =>
      Goto(s.(readers := s.readers - 1), t, if s.readers - 1 == 0 then Waking(WakePc.Lock) else Idle)
    case Waking(Lock) => if s.waitLock == None then Goto(s.(waitLock := t), t, Waking(Find)) else s
    case Waking(Find) => Goto(s, t, Waking(Drop(s.owner)))
    case Waking(Drop(owner)) => Goto(s.(waitLock := None), t, Waking(Wake(owner)))
    case Waking(Wake(owner)) =>
      Goto(if TaskIn(s, owner) then s.(asleep := s.asleep[owner := false]) else s, t, Idle)
    case _ => s
  }

  function DrainStep(s: State, t: nat, b: Bias, x: Choice): (s': State)
    requires Sized(s) && t < |s.pc|
    ensures Sized(s') && |s'.pc| == |s.pc|
  {
    match s.pc[t]
    case RtLock(once) =>
      if s.owner == None then Goto(s.(owner := t), t, SubBias(once))
      else if once || x.signal then Goto(s, t, Idle) else s
    case SubBias(once) => Goto(s.(readers := s.readers - b.reader), t, Draining(DrainPc.WaitLock(once)))
    case Draining(WaitLock(once)) =>
      if s.waitLock == None then Goto(s.(waitLock := t), t, Draining(Test(once))) else s
    case Draining(Test(once)) =>
      Goto(s, t, Draining(if s.readers == 0 then Mark else if once then Undo else SetState))
    case Draining(SetState) => Goto(s.(asleep := s.asleep[t := true]), t, Draining(Signal))
    case Draining(Signal) => Goto(s, t, Draining(if x.signal then Undo else Retest))
    case Draining(Retest) => Goto(s, t, Draining(if s.readers == 0 then Mark else Sleep))
    case Draining(Sleep) => Goto(s.(waitLock := None), t, Draining(Asleep))
    case Draining(Asleep) => if s.asleep[t] && !x.signal then s else Goto(s, t, Draining(Relock))
    case Draining(Relock) => if s.waitLock == None then Goto(s.(waitLock := t), t, Draining(SetState)) else s
    case Draining(Mark) => Goto(s.(readers := b.writer), t, Writing(WritePc.Unlock))
    case Draining(Undo) => Goto(s.(readers := s.readers + b.reader - 0), t, Dropping(false))
    case _ => s
  }

  function WriteStep(s: State, t: nat, b: Bias, x: Choice): (s': State)
    requires Sized(s) && t < |s.pc|
    ensures Sized(s') && |s'.pc| == |s.pc|
  {
    match s.pc[t]
    case Writing(Unlock) => Goto(s.(waitLock := None), t, Writing(Inside))
    case Writing(Inside) => Goto(s, t, Writing(WritePc.Lock(x.once)))
    case Writing(Lock(down)) => if s.waitLock == None then Goto(s.(waitLock := t), t, Writing(Release(down))) else s
    case Writing(Release(down)) =>
      Goto(s.(readers := s.readers + b.reader - if down then b.writer - 1 else b.writer), t, Dropping(down))
    case Dropping(reader) => Goto(s.(waitLock := None), t, RtUnlocking(reader))
    case RtUnlocking(reader) => Goto(s.(owner := None), t, if reader then Reading else Idle)
    case _ => s
  }

  predicate Drains(pc: Pc) { pc.RtLock? || pc.SubBias? || pc.Draining? }

  predicate Writes(pc: Pc) { pc.Writing? || pc.Dropping? || pc.RtUnlocking? }

  function Step(s: State, t: nat, b: Bias, x: Choice): (s': State)
    requires Sized(s) && t < |s.pc|
    ensures Sized(s') && |s'.pc| == |s.pc|
  {
    if Drains(s.pc[t]) then DrainStep(s, t, b, x)
    else if Writes(s.pc[t]) then WriteStep(s, t, b, x)
    else ReadStep(s, t, x)
  }

  // ---------------------------------------------------------------------------
  // Invariants
  // ---------------------------------------------------------------------------

  /** Counted as a reader: inside, or about to be once the locks are dropped. */
  predicate HasRead(pc: Pc) {
    || pc.Reading? || pc == Entering(ReadPc.Unlock(true)) || pc == Entering(RtUnlock)
    || pc == Dropping(true) || pc == RtUnlocking(true)
  }

  predicate HasMutex(pc: Pc) {
    || pc == Entering(Inc) || pc == Entering(ReadPc.Unlock(true)) || pc == Entering(RtUnlock)
    || pc.SubBias? || pc.Draining? || pc.Writing? || pc.Dropping? || pc.RtUnlocking?
  }

  predicate HasWaitLock(pc: Pc) {
    match pc
    case Entering(r) => r.Slow? || r.Inc? || r.Unlock?
    case Waking(w) => w.Find? || w.Drop?
    case Draining(d) => !d.WaitLock? && !d.Asleep? && !d.Relock?
    case Writing(w) => w.Unlock? || w.Release?
    case Dropping(_) => true
    case _ => false
  }

  /** What the counter would be without readers. */
  function Base(s: State, b: Bias): int {
    if TaskIn(s, s.owner) && s.pc[s.owner].Draining? then 0
    else if TaskIn(s, s.owner) && s.pc[s.owner].Writing? then b.writer else b.reader
  }

  /** Not stored: the readers, and who last took the counter to zero. */
  datatype Ghost = Ghost(readers: set<nat>, waker: int)

  function Recorded(s: State, g: Ghost, t: nat, s': State): Ghost
    requires t < |s.pc| == |s'.pc|
  {
    var pc, pc' := s.pc[t], s'.pc[t];
    Ghost(if HasRead(pc) == HasRead(pc') then g.readers
          else if HasRead(pc') then g.readers + {t} else g.readers - {t},
          if pc.Reading? && pc'.Waking? then t else g.waker)
  }

  predicate Fits(s: State, b: Bias) { b.reader + |s.pc| < 0 && |s.pc| < b.writer }

  ghost predicate TaskOk(s: State, g: Ghost, t: nat)
    requires TaskIn(s, t)
  {
    var pc := s.pc[t];
    && (t in g.readers <==> HasRead(pc)) && (t == s.owner <==> HasMutex(pc)) && (t == s.waitLock <==> HasWaitLock(pc))
    && (pc.Entering? && pc.read.Cas? ==> pc.read.r < 0)
    && (pc == Draining(Mark) || pc.Writing? ==> g.readers == {})
  }

  /** The counter is the bias plus the readers, the readers alone, or the writer's mark alone. */
  ghost predicate CountOk(s: State, g: Ghost, b: Bias) {
    && (s.owner == None || TaskIn(s, s.owner)) && (s.waitLock == None || TaskIn(s, s.waitLock))
    && (forall t :: t in g.readers ==> TaskIn(s, t)) && |g.readers| <= |s.pc|
    && s.readers == Base(s, b) + |g.readers|
  }

  /** Will wake `w`. */
  predicate WillWake(pc: Pc, w: int) {
    pc.Waking? && (pc.wake.Lock? || pc.wake.Find? || pc.wake.owner == w)
  }

  /** A writer that goes to sleep, or sleeps, for readers that have all left, will be woken. */
  predicate WakeOk(s: State, g: Ghost)
    requires |s.asleep| == |s.pc|
  {
    && TaskIn(s, s.owner) && (s.pc[s.owner] == Draining(Sleep) || s.pc[s.owner] == Draining(Asleep))
    && s.asleep[s.owner] && s.readers == 0
    ==>
      TaskIn(s, g.waker) && WillWake(s.pc[g.waker], s.owner)
  }

  ghost predicate Inv(s: State, g: Ghost, b: Bias) {
    && Sized(s) && Fits(s, b) && CountOk(s, g, b) && WakeOk(s, g)
    && (forall t: nat :: TaskIn(s, t) ==> TaskOk(s, g, t))
  }

  /** What a step of `t` needs to know. */
  ghost predicate Scene(s: State, g: Ghost, b: Bias, t: nat) {
    && Sized(s) && Fits(s, b) && CountOk(s, g, b) && WakeOk(s, g) && TaskIn(s, t) && TaskOk(s, g, t)
    && (TaskIn(s, s.owner) ==> TaskOk(s, g, s.owner))
  }

  /** As many tasks as there are in a set of them. */
  lemma {:induction false} SetFits(a: set<nat>, n: nat)
    requires forall t :: t in a ==> t < n
    ensures |a| <= n
  {
    if n == 0 {
      assert a == {};
    } else {
      SetFits(a - {n - 1}, n - 1);
      assert |a| <= |a - {n - 1}| + 1 by {
        assert a == if n - 1 in a then (a - {n - 1}) + {n - 1} else a - {n - 1};
      }
    }
  }
  predicate Tries(pc: ReadPc) { pc.Load? || pc.WaitLock? }

  /** Among other tasks, a step of `t` changes no owner, and makes readers only where it may. */
  predicate Spares(s: State, t: nat, s': State)
    requires TaskIn(s, t) && |s'.pc| == |s.pc|
  {
    && s'.pc == s.pc[t := s'.pc[t]]
    && (s'.owner == s.owner || {s.owner, s'.owner} <= {None, t})
    && (s'.waitLock == s.waitLock || {s.waitLock, s'.waitLock} <= {None, t})
    && (HasRead(s'.pc[t]) && !HasRead(s.pc[t]) ==> s.owner == t || s.readers < 0)
  }

  lemma TaskSpared(s: State, g: Ghost, b: Bias, t: nat, s': State, y: nat)
    requires Scene(s, g, b, t) && |s'.pc| == |s.pc| && Spares(s, t, s') && TaskIn(s, y) && y != t
    requires TaskOk(s, g, y)
    ensures TaskOk(s', Recorded(s, g, t, s'), y)
  {
  }

  /** Which locks are held may have changed, and the task that steps. */
  predicate Locks(s: State, t: nat, s': State) {
    && |s'.pc| == |s.pc| && s'.owner in {s.owner, None, t} && s'.waitLock in {s.waitLock, None, t}
  }

  lemma CountSame(s: State, g: Ghost, b: Bias, t: nat, s': State, g': Ghost)
    requires CountOk(s, g, b) && TaskIn(s, t) && Locks(s, t, s') && s'.readers == s.readers
    requires g'.readers == g.readers && Base(s', b) == Base(s, b)
    ensures CountOk(s', g', b)
  {
    hide Base;
  }

  /** One reader more, or one less. */
  lemma CountMoves(s: State, g: Ghost, b: Bias, t: nat, s': State, g': Ghost)
    requires CountOk(s, g, b) && TaskIn(s, t) && Locks(s, t, s') && Base(s', b) == Base(s, b)
    requires if t in g.readers then g'.readers == g.readers - {t} && s'.readers == s.readers - 1
             else g'.readers == g.readers + {t} && s'.readers == s.readers + 1
    ensures CountOk(s', g', b)
  {
    hide Base;
    SetFits(g'.readers, |s.pc|);
  }

  lemma SparesTry(s: State, g: Ghost, b: Bias, t: nat, x: Choice)
    requires Scene(s, g, b, t) && (s.pc[t].Idle? || (s.pc[t].Entering? && Tries(s.pc[t].read)))
    ensures Spares(s, t, ReadStep(s, t, x))
  {
  }

  lemma TaskTry(s: State, g: Ghost, b: Bias, t: nat, x: Choice)
    requires Scene(s, g, b, t) && (s.pc[t].Idle? || (s.pc[t].Entering? && Tries(s.pc[t].read)))
    ensures var s' := ReadStep(s, t, x); TaskOk(s', Recorded(s, g, t, s'), t)
  {
    hide WakeOk, CountOk, Fits;
  }

  lemma CountTry(s: State, g: Ghost, b: Bias, t: nat, x: Choice)
    requires Scene(s, g, b, t) && (s.pc[t].Idle? || (s.pc[t].Entering? && Tries(s.pc[t].read)))
    ensures var s' := ReadStep(s, t, x); CountOk(s', Recorded(s, g, t, s'), b)
  {
    hide CountOk, WakeOk, Fits;
    var s' := ReadStep(s, t, x);
    var g' := Recorded(s, g, t, s');
    CountSame(s, g, b, t, s', g');
  }

  lemma WakeTry(s: State, g: Ghost, b: Bias, t: nat, x: Choice)
    requires Scene(s, g, b, t) && (s.pc[t].Idle? || (s.pc[t].Entering? && Tries(s.pc[t].read)))
    ensures var s' := ReadStep(s, t, x); WakeOk(s', Recorded(s, g, t, s'))
  {
    hide CountOk, Fits, Base;
  }

  lemma SparesCas(s: State, g: Ghost, b: Bias, t: nat, x: Choice)
    requires Scene(s, g, b, t) && s.pc[t].Entering? && s.pc[t].read.Cas?
    ensures Spares(s, t, ReadStep(s, t, x))
  {
  }

  lemma TaskCas(s: State, g: Ghost, b: Bias, t: nat, x: Choice)
    requires Scene(s, g, b, t) && s.pc[t].Entering? && s.pc[t].read.Cas?
    ensures var s' := ReadStep(s, t, x); TaskOk(s', Recorded(s, g, t, s'), t)
  {
    hide WakeOk, CountOk, Fits;
  }

  lemma CountCas(s: State, g: Ghost, b: Bias, t: nat, x: Choice)
    requires Scene(s, g, b, t) && s.pc[t].Entering? && s.pc[t].read.Cas?
    ensures var s' := ReadStep(s, t, x); CountOk(s', Recorded(s, g, t, s'), b)
  {
    hide CountOk, WakeOk, Fits;
    var s' := ReadStep(s, t, x);
    var g' := Recorded(s, g, t, s');
    if s'.readers == s.readers { CountSame(s, g, b, t, s', g'); } else { CountMoves(s, g, b, t, s', g'); }
  }

  lemma WakeCas(s: State, g: Ghost, b: Bias, t: nat, x: Choice)
    requires Scene(s, g, b, t) && s.pc[t].Entering? && s.pc[t].read.Cas?
    ensures var s' := ReadStep(s, t, x); WakeOk(s', Recorded(s, g, t, s'))
  {
  }

  lemma SparesSlow(s: State, g: Ghost, b: Bias, t: nat, x: Choice)
    requires Scene(s, g, b, t) && (s.pc[t] == Entering(Slow) || s.pc[t] == Entering(Blocked))
    ensures Spares(s, t, ReadStep(s, t, x))
  {
  }

  lemma TaskSlow(s: State, g: Ghost, b: Bias, t: nat, x: Choice)
    requires Scene(s, g, b, t) && (s.pc[t] == Entering(Slow) || s.pc[t] == Entering(Blocked))
    ensures var s' := ReadStep(s, t, x); TaskOk(s', Recorded(s, g, t, s'), t)
  {
    hide WakeOk, CountOk, Fits;
  }

  lemma CountSlow(s: State, g: Ghost, b: Bias, t: nat, x: Choice)
    requires Scene(s, g, b, t) && (s.pc[t] == Entering(Slow) || s.pc[t] == Entering(Blocked))
    ensures var s' := ReadStep(s, t, x); CountOk(s', Recorded(s, g, t, s'), b)
  {
    hide CountOk, WakeOk, Fits;
    var s' := ReadStep(s, t, x);
    var g' := Recorded(s, g, t, s');
    CountSame(s, g, b, t, s', g');
  }

  lemma WakeSlow(s: State, g: Ghost, b: Bias, t: nat, x: Choice)
    requires Scene(s, g, b, t) && (s.pc[t] == Entering(Slow) || s.pc[t] == Entering(Blocked))
    ensures var s' := ReadStep(s, t, x); WakeOk(s', Recorded(s, g, t, s'))
  {
    hide CountOk, Fits, Base;
  }

  lemma SparesInc(s: State, g: Ghost, b: Bias, t: nat, x: Choice)
    requires Scene(s, g, b, t) && s.pc[t] == Entering(Inc)
    ensures Spares(s, t, ReadStep(s, t, x))
  {
  }

  lemma TaskInc(s: State, g: Ghost, b: Bias, t: nat, x: Choice)
    requires Scene(s, g, b, t) && s.pc[t] == Entering(Inc)
    ensures var s' := ReadStep(s, t, x); TaskOk(s', Recorded(s, g, t, s'), t)
  {
    hide WakeOk, CountOk, Fits;
  }

  lemma CountInc(s: State, g: Ghost, b: Bias, t: nat, x: Choice)
    requires Scene(s, g, b, t) && s.pc[t] == Entering(Inc)
    ensures var s' := ReadStep(s, t, x); CountOk(s', Recorded(s, g, t, s'), b)
  {
    hide CountOk, WakeOk, Fits;
    var s' := ReadStep(s, t, x);
    var g' := Recorded(s, g, t, s');
    if s'.readers == s.readers { CountSame(s, g, b, t, s', g'); } else { CountMoves(s, g, b, t, s', g'); }
  }

  lemma WakeInc(s: State, g: Ghost, b: Bias, t: nat, x: Choice)
    requires Scene(s, g, b, t) && s.pc[t] == Entering(Inc)
    ensures var s' := ReadStep(s, t, x); WakeOk(s', Recorded(s, g, t, s'))
  {
    hide CountOk, Fits, Base;
  }

  lemma SparesOut(s: State, g: Ghost, b: Bias, t: nat, x: Choice)
    requires Scene(s, g, b, t) && s.pc[t].Entering? && (s.pc[t].read.Unlock? || s.pc[t].read.RtUnlock?)
    ensures Spares(s, t, ReadStep(s, t, x))
  {
  }

  lemma TaskOut(s: State, g: Ghost, b: Bias, t: nat, x: Choice)
    requires Scene(s, g, b, t) && s.pc[t].Entering? && (s.pc[t].read.Unlock? || s.pc[t].read.RtUnlock?)
    ensures var s' := ReadStep(s, t, x); TaskOk(s', Recorded(s, g, t, s'), t)
  {
    hide WakeOk, CountOk, Fits;
  }

  lemma CountOut(s: State, g: Ghost, b: Bias, t: nat, x: Choice)
    requires Scene(s, g, b, t) && s.pc[t].Entering? && (s.pc[t].read.Unlock? || s.pc[t].read.RtUnlock?)
    ensures var s' := ReadStep(s, t, x); CountOk(s', Recorded(s, g, t, s'), b)
  {
    hide CountOk, WakeOk, Fits;
    var s' := ReadStep(s, t, x);
    var g' := Recorded(s, g, t, s');
    CountSame(s, g, b, t, s', g');
  }

  lemma WakeOut(s: State, g: Ghost, b: Bias, t: nat, x: Choice)
    requires Scene(s, g, b, t) && s.pc[t].Entering? && (s.pc[t].read.Unlock? || s.pc[t].read.RtUnlock?)
    ensures var s' := ReadStep(s, t, x); WakeOk(s', Recorded(s, g, t, s'))
  {
    hide CountOk, Fits, Base;
  }

  lemma SparesLeave(s: State, g: Ghost, b: Bias, t: nat, x: Choice)
    requires Scene(s, g, b, t) && s.pc[t].Reading?
    ensures Spares(s, t, ReadStep(s, t, x))
  {
  }

  lemma TaskLeave(s: State, g: Ghost, b: Bias, t: nat, x: Choice)
    requires Scene(s, g, b, t) && s.pc[t].Reading?
    ensures var s' := ReadStep(s, t, x); TaskOk(s', Recorded(s, g, t, s'), t)
  {
    hide WakeOk, CountOk, Fits;
  }

  lemma CountLeave(s: State, g: Ghost, b: Bias, t: nat, x: Choice)
    requires Scene(s, g, b, t) && s.pc[t].Reading?
    ensures var s' := ReadStep(s, t, x); CountOk(s', Recorded(s, g, t, s'), b)
  {
    hide CountOk, WakeOk, Fits;
    var s' := ReadStep(s, t, x);
    var g' := Recorded(s, g, t, s');
    CountMoves(s, g, b, t, s', g');
  }

  lemma WakeLeave(s: State, g: Ghost, b: Bias, t: nat, x: Choice)
    requires Scene(s, g, b, t) && s.pc[t].Reading?
    ensures var s' := ReadStep(s, t, x); WakeOk(s', Recorded(s, g, t, s'))
  {
    hide CountOk, Fits, Base;
  }

  lemma SparesWaking(s: State, g: Ghost, b: Bias, t: nat, x: Choice)
    requires Scene(s, g, b, t) && s.pc[t].Waking?
    ensures Spares(s, t, ReadStep(s, t, x))
  {
  }

  lemma TaskWaking(s: State, g: Ghost, b: Bias, t: nat, x: Choice)
    requires Scene(s, g, b, t) && s.pc[t].Waking?
    ensures var s' := ReadStep(s, t, x); TaskOk(s', Recorded(s, g, t, s'), t)
  {
    hide WakeOk, CountOk, Fits;
  }

  lemma CountWaking(s: State, g: Ghost, b: Bias, t: nat, x: Choice)
    requires Scene(s, g, b, t) && s.pc[t].Waking?
    ensures var s' := ReadStep(s, t, x); CountOk(s', Recorded(s, g, t, s'), b)
  {
    hide CountOk, WakeOk, Fits;
    var s' := ReadStep(s, t, x);
    var g' := Recorded(s, g, t, s');
    CountSame(s, g, b, t, s', g');
  }

  lemma WakeWaking(s: State, g: Ghost, b: Bias, t: nat, x: Choice)
    requires Scene(s, g, b, t) && s.pc[t].Waking?
    ensures var s' := ReadStep(s, t, x); WakeOk(s', Recorded(s, g, t, s'))
  {
    hide CountOk, Fits, Base;
  }

  lemma SparesLock(s: State, g: Ghost, b: Bias, t: nat, x: Choice)
    requires Scene(s, g, b, t) && (s.pc[t].RtLock? || s.pc[t].SubBias?)
    ensures Spares(s, t, DrainStep(s, t, b, x))
  {
  }

  lemma TaskLock(s: State, g: Ghost, b: Bias, t: nat, x: Choice)
    requires Scene(s, g, b, t) && (s.pc[t].RtLock? || s.pc[t].SubBias?)
    ensures var s' := DrainStep(s, t, b, x); TaskOk(s', Recorded(s, g, t, s'), t)
  {
    hide WakeOk, CountOk, Fits;
  }

  lemma CountLock(s: State, g: Ghost, b: Bias, t: nat, x: Choice)
    requires Scene(s, g, b, t) && (s.pc[t].RtLock? || s.pc[t].SubBias?)
    ensures var s' := DrainStep(s, t, b, x); CountOk(s', Recorded(s, g, t, s'), b)
  {
    hide WakeOk;
    var s' := DrainStep(s, t, b, x);
    var g' := Recorded(s, g, t, s');
    assert g'.readers == g.readers;
  }

  lemma WakeLock(s: State, g: Ghost, b: Bias, t: nat, x: Choice)
    requires Scene(s, g, b, t) && (s.pc[t].RtLock? || s.pc[t].SubBias?)
    ensures var s' := DrainStep(s, t, b, x); WakeOk(s', Recorded(s, g, t, s'))
  {
    hide CountOk, Fits, Base;
  }

  lemma SparesDrain(s: State, g: Ghost, b: Bias, t: nat, x: Choice)
    requires Scene(s, g, b, t) && s.pc[t].Draining? && s.pc[t].drain != DrainPc.Mark
    requires s.pc[t].drain != DrainPc.Undo
    ensures Spares(s, t, DrainStep(s, t, b, x))
  {
  }

  lemma TaskDrain(s: State, g: Ghost, b: Bias, t: nat, x: Choice)
    requires Scene(s, g, b, t) && s.pc[t].Draining? && s.pc[t].drain != DrainPc.Mark
    requires s.pc[t].drain != DrainPc.Undo
    ensures var s' := DrainStep(s, t, b, x); TaskOk(s', Recorded(s, g, t, s'), t)
  {
    hide WakeOk, Fits;
  }

  lemma CountDrain(s: State, g: Ghost, b: Bias, t: nat, x: Choice)
    requires Scene(s, g, b, t) && s.pc[t].Draining? && s.pc[t].drain != DrainPc.Mark
    requires s.pc[t].drain != DrainPc.Undo
    ensures var s' := DrainStep(s, t, b, x); CountOk(s', Recorded(s, g, t, s'), b)
  {
    hide CountOk, WakeOk, Fits;
    var s' := DrainStep(s, t, b, x);
    var g' := Recorded(s, g, t, s');
    CountSame(s, g, b, t, s', g');
  }

  lemma WakeDrain(s: State, g: Ghost, b: Bias, t: nat, x: Choice)
    requires Scene(s, g, b, t) && s.pc[t].Draining? && s.pc[t].drain != DrainPc.Mark
    requires s.pc[t].drain != DrainPc.Undo
    ensures var s' := DrainStep(s, t, b, x); WakeOk(s', Recorded(s, g, t, s'))
  {
    hide CountOk, Fits, Base;
  }

  lemma SparesMark(s: State, g: Ghost, b: Bias, t: nat, x: Choice)
    requires Scene(s, g, b, t) && (s.pc[t] == Draining(Mark) || s.pc[t] == Draining(Undo))
    ensures Spares(s, t, DrainStep(s, t, b, x))
  {
  }

  lemma TaskMark(s: State, g: Ghost, b: Bias, t: nat, x: Choice)
    requires Scene(s, g, b, t) && (s.pc[t] == Draining(Mark) || s.pc[t] == Draining(Undo))
    ensures var s' := DrainStep(s, t, b, x); TaskOk(s', Recorded(s, g, t, s'), t)
  {
    hide WakeOk, CountOk, Fits;
  }

  lemma CountMark(s: State, g: Ghost, b: Bias, t: nat, x: Choice)
    requires Scene(s, g, b, t) && (s.pc[t] == Draining(Mark) || s.pc[t] == Draining(Undo))
    ensures var s' := DrainStep(s, t, b, x); CountOk(s', Recorded(s, g, t, s'), b)
  {
    hide WakeOk;
    var s' := DrainStep(s, t, b, x);
    var g' := Recorded(s, g, t, s');
    assert s.owner == t && Base(s, b) == 0;
    assert g'.readers == g.readers;
  }

  lemma WakeMark(s: State, g: Ghost, b: Bias, t: nat, x: Choice)
    requires Scene(s, g, b, t) && (s.pc[t] == Draining(Mark) || s.pc[t] == Draining(Undo))
    ensures var s' := DrainStep(s, t, b, x); WakeOk(s', Recorded(s, g, t, s'))
  {
    hide CountOk, Fits, Base;
  }

  lemma SparesWrite(s: State, g: Ghost, b: Bias, t: nat, x: Choice)
    requires Scene(s, g, b, t) && Writes(s.pc[t])
    ensures Spares(s, t, WriteStep(s, t, b, x))
  {
  }

  lemma TaskWrite(s: State, g: Ghost, b: Bias, t: nat, x: Choice)
    requires Scene(s, g, b, t) && Writes(s.pc[t])
    ensures var s' := WriteStep(s, t, b, x); TaskOk(s', Recorded(s, g, t, s'), t)
  {
    hide WakeOk, CountOk, Fits;
  }

  lemma CountRelease(s: State, g: Ghost, b: Bias, t: nat, x: Choice)
    requires Scene(s, g, b, t) && s.pc[t].Writing? && s.pc[t].write.Release?
    ensures var s' := WriteStep(s, t, b, x); CountOk(s', Recorded(s, g, t, s'), b)
  {
    hide WakeOk;
    var s' := WriteStep(s, t, b, x);
    var g' := Recorded(s, g, t, s');
    assert s.owner == t && g.readers == {} && s.readers == b.writer;
    assert g'.readers == if s.pc[t].write.down then {t} else {};
  }

  lemma CountStays(s: State, g: Ghost, b: Bias, t: nat, x: Choice)
    requires Scene(s, g, b, t) && Writes(s.pc[t]) && !(s.pc[t].Writing? && s.pc[t].write.Release?)
    ensures var s' := WriteStep(s, t, b, x); CountOk(s', Recorded(s, g, t, s'), b)
  {
    hide WakeOk, CountOk, Fits;
    var s' := WriteStep(s, t, b, x);
    CountSame(s, g, b, t, s', Recorded(s, g, t, s'));
  }

  lemma CountWrite(s: State, g: Ghost, b: Bias, t: nat, x: Choice)
    requires Scene(s, g, b, t) && Writes(s.pc[t])
    ensures var s' := WriteStep(s, t, b, x); CountOk(s', Recorded(s, g, t, s'), b)
  {
    hide WakeOk, CountOk, Fits, TaskOk, WriteStep, Recorded;
    if s.pc[t].Writing? && s.pc[t].write.Release? {
      CountRelease(s, g, b, t, x);
    } else {
      CountStays(s, g, b, t, x);
    }
  }

  lemma WakeWrite(s: State, g: Ghost, b: Bias, t: nat, x: Choice)
    requires Scene(s, g, b, t) && Writes(s.pc[t])
    ensures var s' := WriteStep(s, t, b, x); WakeOk(s', Recorded(s, g, t, s'))
  {
    hide CountOk, Fits, Base;
  }

  // ---------------------------------------------------------------------------
  // Runs
  // ---------------------------------------------------------------------------

  lemma SceneHolds(s: State, g: Ghost, b: Bias, t: nat)
    requires Inv(s, g, b) && TaskIn(s, t)
    ensures Scene(s, g, b, t)
  {
    hide CountOk, WakeOk, TaskOk;
  }

  lemma SparesKept(s: State, g: Ghost, b: Bias, t: nat, x: Choice)
    requires Inv(s, g, b) && TaskIn(s, t)
    ensures Spares(s, t, Step(s, t, b, x))
  {
    hide Inv, Scene, Spares, ReadStep, DrainStep, WriteStep;
    SceneHolds(s, g, b, t);
    match s.pc[t]
    case Idle => SparesTry(s, g, b, t, x);
    case Entering(r) =>
      if Tries(r) { SparesTry(s, g, b, t, x); }
      else if r.Cas? { SparesCas(s, g, b, t, x); }
      else if r.Slow? || r.Blocked? { SparesSlow(s, g, b, t, x); }
      else if r.Inc? { SparesInc(s, g, b, t, x); }
      else { SparesOut(s, g, b, t, x); }
    case Reading => SparesLeave(s, g, b, t, x);
    case Waking(_) => SparesWaking(s, g, b, t, x);
    case RtLock(_) => SparesLock(s, g, b, t, x);
    case SubBias(_) => SparesLock(s, g, b, t, x);
    case Draining(d) => if d.Mark? || d.Undo? { SparesMark(s, g, b, t, x); } else { SparesDrain(s, g, b, t, x); }
    case Writing(_) => SparesWrite(s, g, b, t, x);
    case Dropping(_) => SparesWrite(s, g, b, t, x);
    case RtUnlocking(_) => SparesWrite(s, g, b, t, x);
  }

  lemma OwnKept(s: State, g: Ghost, b: Bias, t: nat, x: Choice)
    requires Inv(s, g, b) && TaskIn(s, t)
    ensures var s' := Step(s, t, b, x); var g' := Recorded(s, g, t, s');
            TaskOk(s', g', t) && CountOk(s', g', b) && WakeOk(s', g')
  {
    hide Inv, Scene, TaskOk, CountOk, WakeOk, Recorded, ReadStep, DrainStep, WriteStep;
    SceneHolds(s, g, b, t);
    match s.pc[t]
    case Idle => TaskTry(s, g, b, t, x); CountTry(s, g, b, t, x); WakeTry(s, g, b, t, x);
    case Entering(r) =>
      if Tries(r) { TaskTry(s, g, b, t, x); CountTry(s, g, b, t, x); WakeTry(s, g, b, t, x); }
      else if r.Cas? { TaskCas(s, g, b, t, x); CountCas(s, g, b, t, x); WakeCas(s, g, b, t, x); }
      else if r.Slow? || r.Blocked? { TaskSlow(s, g, b, t, x); CountSlow(s, g, b, t, x); WakeSlow(s, g, b, t, x); }
      else if r.Inc? { TaskInc(s, g, b, t, x); CountInc(s, g, b, t, x); WakeInc(s, g, b, t, x); }
      else { TaskOut(s, g, b, t, x); CountOut(s, g, b, t, x); WakeOut(s, g, b, t, x); }
    case Reading => TaskLeave(s, g, b, t, x); CountLeave(s, g, b, t, x); WakeLeave(s, g, b, t, x);
    case Waking(_) => TaskWaking(s, g, b, t, x); CountWaking(s, g, b, t, x); WakeWaking(s, g, b, t, x);
    case RtLock(_) => TaskLock(s, g, b, t, x); CountLock(s, g, b, t, x); WakeLock(s, g, b, t, x);
    case SubBias(_) => TaskLock(s, g, b, t, x); CountLock(s, g, b, t, x); WakeLock(s, g, b, t, x);
    case Draining(d) =>
      if d.Mark? || d.Undo? { TaskMark(s, g, b, t, x); CountMark(s, g, b, t, x); WakeMark(s, g, b, t, x); }
      else { TaskDrain(s, g, b, t, x); CountDrain(s, g, b, t, x); WakeDrain(s, g, b, t, x); }
    case Writing(_) => TaskWrite(s, g, b, t, x); CountWrite(s, g, b, t, x); WakeWrite(s, g, b, t, x);
    case Dropping(_) => TaskWrite(s, g, b, t, x); CountWrite(s, g, b, t, x); WakeWrite(s, g, b, t, x);
    case RtUnlocking(_) => TaskWrite(s, g, b, t, x); CountWrite(s, g, b, t, x); WakeWrite(s, g, b, t, x);
  }

  lemma StepKeepsInv(s: State, g: Ghost, b: Bias, t: nat, x: Choice)
    requires Inv(s, g, b) && TaskIn(s, t)
    ensures Inv(Step(s, t, b, x), Recorded(s, g, t, Step(s, t, b, x)), b)
  {
    hide TaskOk, CountOk, WakeOk, Recorded, Step, Spares;
    var s' := Step(s, t, b, x);
    SceneHolds(s, g, b, t);
    SparesKept(s, g, b, t, x);
    OwnKept(s, g, b, t, x);
    forall y: nat | TaskIn(s', y) ensures TaskOk(s', Recorded(s, g, t, s'), y) {
      if y != t { TaskSpared(s, g, b, t, s', y); }
    }
  }

  ghost predicate Init(s: State, b: Bias) {
    && Sized(s) && Fits(s, b) && s.readers == b.reader && s.owner == None && s.waitLock == None
    && (forall t :: TaskIn(s, t) ==> s.pc[t] == Idle)
  }

  ghost predicate NextBy(s: State, s': State, b: Bias, t: nat, x: Choice) {
    Sized(s) && TaskIn(s, t) && s' == Step(s, t, b, x)
  }

  ghost predicate Next(s: State, s': State, b: Bias) { exists t: nat, x :: NextBy(s, s', b, t, x) }

  /** An interleaving of any length of any number of tasks. */
  ghost predicate Run(run: seq<State>, b: Bias) {
    && |run| > 0 && Init(run[0], b)
    && (forall i :: 0 <= i < |run| - 1 ==> Next(run[i], run[i + 1], b))
  }

  lemma {:induction false} RunKeepsInv(run: seq<State>, b: Bias, i: nat) returns (g: Ghost)
    requires Run(run, b) && i < |run|
    ensures Inv(run[i], g, b)
  {
    hide Step;
    if i == 0 {
      g := Ghost({}, None);
    } else {
      var g0 := RunKeepsInv(run, b, i - 1);
      assert Next(run[i - 1], run[i - 1 + 1], b);
      var t: nat, x :| NextBy(run[i - 1], run[i], b, t, x);
      StepKeepsInv(run[i - 1], g0, b, t, x);
      g := Recorded(run[i - 1], g0, t, run[i]);
    }
  }

  function Readers(s: State): set<nat> { set t: nat | t < |s.pc| && HasRead(s.pc[t]) }

  lemma ReadersAre(s: State, g: Ghost, b: Bias)
    requires Inv(s, g, b)
    ensures g.readers == Readers(s)
  {
    hide WakeOk, Fits, Base;
    forall t: nat ensures t in g.readers <==> t in Readers(s) {
      if TaskIn(s, t) { assert TaskOk(s, g, t); }
    }
  }

  /** In every interleaving the counter is READER_BIAS plus the active readers, the active readers
      while a writer drains them, or WRITER_BIAS with none active. */
  lemma CounterMeans(run: seq<State>, b: Bias, i: nat)
    requires Run(run, b) && i < |run|
    ensures var s := run[i]; s.readers == Base(s, b) + |Readers(s)| && |Readers(s)| <= |s.pc|
    ensures var s := run[i]; s.readers < 0 <==> Base(s, b) == b.reader
    ensures var s := run[i]; s.readers == b.writer <==> TaskIn(s, s.owner) && s.pc[s.owner].Writing?
  {
    hide Step;
    var g := RunKeepsInv(run, b, i);
    ReadersAre(run[i], g, b);
    if TaskIn(run[i], run[i].owner) { assert TaskOk(run[i], g, run[i].owner); }
  }

  /** Readers and a writer never overlap, and neither do two writers. */
  lemma WriterIsAlone(run: seq<State>, b: Bias, i: nat, w: nat, t: nat)
    requires Run(run, b) && i < |run| && w < |run[i].pc| && t < |run[i].pc|
    requires run[i].pc[w].Writing?
    ensures !HasRead(run[i].pc[t]) && (run[i].pc[t].Writing? ==> t == w)
  {
    hide Step, WakeOk, Fits, Base;
    var g := RunKeepsInv(run, b, i);
    assert TaskOk(run[i], g, w) && TaskOk(run[i], g, t);
  }

  /** Reading the counter and then setting it needs no compare-and-exchange: from the read that found
      zero to the write, whatever the others do, the counter stays zero. */
  lemma TrylockIsSafe(run: seq<State>, b: Bias, i: nat, w: nat)
    requires Run(run, b) && i < |run| && w < |run[i].pc| && run[i].pc[w] == Draining(Mark)
    ensures run[i].readers == 0 && Readers(run[i]) == {}
  {
    hide Step, WakeOk;
    var g := RunKeepsInv(run, b, i);
    assert TaskOk(run[i], g, w);
    ReadersAre(run[i], g, b);
  }

  /** Giving up, by a signal or a failed trylock, puts the readers' bias back on top of the readers
      that are inside; a write unlock leaves the bias alone; a downgrade leaves one reader, the writer. */
  lemma BiasIsRestored(run: seq<State>, b: Bias, i: nat, w: nat, x: Choice)
    requires Run(run, b) && i < |run| && w < |run[i].pc|
    requires Sized(run[i]) && var pc := run[i].pc[w]; pc == Draining(Undo) || (pc.Writing? && pc.write.Release?)
    ensures var s, s' := run[i], Step(run[i], w, b, x); var pc := s.pc[w];
            && s'.readers == b.reader + |Readers(s')|
            && Readers(s') == if pc.Draining? then Readers(s) else if pc.write.down then {w} else {}
  {
    hide WakeOk, ReadStep;
    var g := RunKeepsInv(run, b, i);
    var s, s' := run[i], Step(run[i], w, b, x);
    assert TaskOk(s, g, w);
    ReadersAre(s, g, b);
    StepKeepsInv(s, g, b, w, x);
    ReadersAre(s', Recorded(s, g, w, s'), b);
    assert Readers(s') == if HasRead(s'.pc[w]) then Readers(s) + {w} else Readers(s);
  }

  /** A read unlock takes the counter to zero only when a writer is draining the readers, and it is
      the last of them. */
  lemma ZeroIsForTheWriter(run: seq<State>, b: Bias, i: nat, t: nat)
    requires Run(run, b) && i < |run| && t < |run[i].pc| && run[i].pc[t].Reading?
    ensures run[i].readers - 1 == 0 <==>
            TaskIn(run[i], run[i].owner) && run[i].pc[run[i].owner].Draining? && Readers(run[i]) == {t}
  {
    hide Step, WakeOk;
    var g := RunKeepsInv(run, b, i);
    var s := run[i];
    assert TaskOk(s, g, t);
    if TaskIn(s, s.owner) { assert TaskOk(s, g, s.owner); }
    ReadersAre(s, g, b);
    assert t in Readers(s);
    if |Readers(s)| == 1 {
      assert |Readers(s) - {t}| == 0;
      assert Readers(s) == {t};
    }
  }

  /** A writer asleep although no reader is left will be woken: the reader that left last is on its
      way to do so, and has this writer as the owner it found, or will find it. */
  lemma SleeperIsWoken(run: seq<State>, b: Bias, i: nat, w: nat) returns (r: nat)
    requires Run(run, b) && i < |run| && w < |run[i].pc| && Sized(run[i])
    requires run[i].pc[w] == Draining(Asleep) && run[i].asleep[w] && run[i].readers == 0
    ensures r < |run[i].pc| && WillWake(run[i].pc[r], w) && run[i].owner == w
  {
    hide Step;
    var g := RunKeepsInv(run, b, i);
    assert TaskOk(run[i], g, w);
    r := g.waker;
  }

  // ---------------------------------------------------------------------------
  // Nobody is stuck
  // ---------------------------------------------------------------------------

  /** A task that cannot move waits for the wait_lock, and whoever has that can move; or it waits for
      the rtmutex; or it sleeps for readers, and one is still inside or on its way to wake it. */
  lemma StuckOnlyBehind(s: State, g: Ghost, b: Bias, t: nat, x: Choice)
    requires Inv(s, g, b) && TaskIn(s, t) && Step(s, t, b, x) == s
    ensures
      || (TaskIn(s, s.waitLock) && s.waitLock != t && Step(s, s.waitLock, b, x) != s)
      || (s.pc[t] == RtLock(false) && TaskIn(s, s.owner) && s.owner != t)
      || (s.pc[t] == Draining(Asleep) && s.asleep[t]
          && if s.readers == 0 then TaskIn(s, g.waker) && WillWake(s.pc[g.waker], t) else g.readers != {})
  {
    hide Fits;
    assert TaskOk(s, g, t);
    if TaskIn(s, s.waitLock) {
      assert TaskOk(s, g, s.waitLock);
    }
  }

  /** `n` steps of task `t` alone. */
  function Alone(s: State, t: nat, b: Bias, x: Choice, n: nat): (s': State)
    requires Sized(s) && TaskIn(s, t)
    ensures Sized(s') && |s'.pc| == |s.pc|
    decreases n
  {
    if n == 0 then s else Alone(Step(s, t, b, x), t, b, x, n - 1)
  }

  /** Both locks are free, or taken by `t`. */
  predicate Open(s: State, t: nat) { s.owner in {None, t} && s.waitLock in {None, t} }

  /** In rwbase_read_lock, without a signal having arrived; or in a trylock that has not failed. */
  predicate ReadLocks(pc: Pc) { pc.Entering? && pc.read != ReadPc.Unlock(false) }

  /** How many steps a reader needs at most. */
  function ReadLeft(s: State, pc: Pc): nat {
    match pc
    case Entering(Load(_)) => 2
    case Entering(Cas(_, r)) => if r == s.readers then 1 else 2
    case Entering(WaitLock) => 5
    case Entering(Blocked) => 5
    case Entering(Slow) => 4
    case Entering(Inc) => 3
    case Entering(Unlock(_)) => 2
    case Entering(RtUnlock) => 1
    case _ => 0
  }

  lemma ReadAdvances(s: State, g: Ghost, b: Bias, t: nat, x: Choice)
    requires Inv(s, g, b) && TaskIn(s, t) && ReadLocks(s.pc[t]) && Open(s, t)
    ensures var s' := Step(s, t, b, x);
            && (s'.pc[t] == Reading || ReadLocks(s'.pc[t])) && Open(s', t)
            && ReadLeft(s', s'.pc[t]) < ReadLeft(s, s.pc[t])
  {
    hide WakeOk;
    assert TaskOk(s, g, t);
  }

  /** Wherever a reader stands, when no writer is there it is in after at most five steps of its own,
      and by the fast path after two. */
  lemma {:induction false} ReadAlone(s: State, g: Ghost, b: Bias, t: nat, x: Choice) returns (n: nat)
    requires Inv(s, g, b) && TaskIn(s, t) && (s.pc[t] == Reading || ReadLocks(s.pc[t])) && Open(s, t)
    ensures n <= ReadLeft(s, s.pc[t]) <= 5 && Alone(s, t, b, x, n).pc[t] == Reading
    decreases ReadLeft(s, s.pc[t])
  {
    hide Step, Open, CountOk, TaskOk, WakeOk, Fits;
    if s.pc[t] == Reading {
      n := 0;
    } else {
      ReadAdvances(s, g, b, t, x);
      StepKeepsInv(s, g, b, t, x);
      n := ReadAlone(Step(s, t, b, x), Recorded(s, g, t, Step(s, t, b, x)), b, t, x);
      n := n + 1;
    }
  }

  /** In rwbase_write_lock or a trylock, up to the critical section. */
  predicate WriteLocks(pc: Pc) {
    pc.RtLock? || pc.SubBias? || (pc.Draining? && !pc.drain.Undo?) || pc == Writing(WritePc.Unlock)
  }

  /** How many steps a writer needs at most, when there are no readers. */
  function WriteLeft(pc: Pc): nat {
    match pc
    case RtLock(_) => 6
    case SubBias(_) => 5
    case Draining(d) =>
      (match d case WaitLock(_) => 4 case Test(_) => 3 case SetState => 5 case Signal => 4 case Retest => 3
               case Sleep => 8 case Asleep => 7 case Relock => 6 case Mark => 2 case Undo => 0)
    case Writing(Unlock) => 1
    case _ => 0
  }

  /** No readers, and `t` is not asleep. */
  ghost predicate Clear(s: State, g: Ghost, t: nat)
    requires Sized(s) && TaskIn(s, t)
  {
    g.readers == {} && (s.pc[t] == Draining(Sleep) || s.pc[t] == Draining(Asleep) ==> !s.asleep[t])
  }

  lemma WriteAdvances(s: State, g: Ghost, b: Bias, t: nat, x: Choice)
    requires Inv(s, g, b) && TaskIn(s, t) && WriteLocks(s.pc[t]) && Open(s, t) && Clear(s, g, t) && !x.signal
    ensures var s' := Step(s, t, b, x);
            && (s'.pc[t] == Writing(Inside) || WriteLocks(s'.pc[t])) && Open(s', t)
            && Clear(s', Recorded(s, g, t, s'), t) && WriteLeft(s'.pc[t]) < WriteLeft(s.pc[t])
  {
    hide WakeOk;
    assert TaskOk(s, g, t);
  }

  /** Wherever a writer stands, when nobody else is there and no signal comes it is in after at most
      eight steps of its own. */
  lemma {:induction false} WriteAlone(s: State, g: Ghost, b: Bias, t: nat, x: Choice) returns (n: nat)
    requires Inv(s, g, b) && TaskIn(s, t) && (s.pc[t] == Writing(Inside) || WriteLocks(s.pc[t]))
    requires Open(s, t) && Clear(s, g, t) && !x.signal
    ensures n <= WriteLeft(s.pc[t]) <= 8 && Alone(s, t, b, x, n).pc[t] == Writing(Inside)
    decreases WriteLeft(s.pc[t])
  {
    hide Step, Open, Clear, CountOk, TaskOk, WakeOk, Fits;
    if s.pc[t] == Writing(Inside) {
      n := 0;
    } else {
      WriteAdvances(s, g, b, t, x);
      StepKeepsInv(s, g, b, t, x);
      n := WriteAlone(Step(s, t, b, x), Recorded(s, g, t, Step(s, t, b, x)), b, t, x);
      n := n + 1;
    }
  }

  /** Calls start where they should; a draining writer is set to sleep before it looks again; and a reader
      goes on to wake somebody only when it takes the counter to zero. */
  lemma WhoGoesWhere(s: State, b: Bias, t: nat, x: Choice)
    requires Sized(s) && TaskIn(s, t)
    ensures var pc, s' := s.pc[t], Step(s, t, b, x);
            && (pc == Idle ==> s'.pc[t] == if x.write then RtLock(x.once) else Entering(Load(x.once)))
            && (pc == Draining(SetState) ==> s'.asleep[t] && s'.pc[t] == Draining(Signal))
            && (pc == Reading ==> s'.pc[t] == if s.readers == 1 then Waking(WakePc.Lock) else Idle)
  {
  }

  /** A trylock gives up exactly where a lock call goes on to wait; a signal ends each wait. */
  lemma WhoGivesUp(s: State, g: Ghost, b: Bias, t: nat, x: Choice)
    requires Inv(s, g, b) && TaskIn(s, t)
    ensures var pc, pc' := s.pc[t], Step(s, t, b, x).pc[t];
            && (s.readers >= 0 ==>
                  && (pc.Entering? && pc.read.Load? ==> pc' == if pc.read.once then Idle else Entering(ReadPc.WaitLock))
                  && (pc.Entering? && pc.read.Cas? ==> pc' == if pc.read.once then Idle else Entering(ReadPc.WaitLock)))
            && (s.readers != 0 ==>
                  && (pc.Draining? && pc.drain.Test? ==> pc' == Draining(if pc.drain.once then Undo else SetState))
                  && (pc == Draining(Retest) ==> pc' == Draining(Sleep)))
            && (pc == Draining(Signal) ==> (pc' == Draining(Undo) <==> x.signal))
            && (pc == Draining(Asleep) ==> (pc' == Draining(Relock) <==> !s.asleep[t] || x.signal))
            && (s.owner != None ==>
                  && (pc.RtLock? ==> (pc' == Idle <==> pc.once || x.signal))
                  && (pc == Entering(Slow) ==> pc' == Entering(if x.signal then ReadPc.Unlock(false) else Blocked)))
  {
    hide WakeOk, CountOk, Fits;
    assert TaskOk(s, g, t);
  }

  /** On the way out: of a critical section, or after giving up. */
  predicate Exits(pc: Pc) {
    || pc.Reading? || pc.Waking? || (pc.Writing? && !pc.write.Unlock?) || pc.Dropping? || pc.RtUnlocking?
    || pc == Draining(Undo) || pc == Entering(ReadPc.Unlock(false))
  }

  function ExitLeft(pc: Pc): nat {
    match pc
    case Entering(_) => 1
    case Reading => 5
    case Waking(w) => (match w case Lock => 4 case Find => 3 case Drop(_) => 2 case Wake(_) => 1)
    case Writing(w) => (match w case Unlock => 0 case Inside => 10 case Lock(_) => 9 case Release(_) => 8)
    case Draining(_) => 8
    case Dropping(_) => 7
    case RtUnlocking(_) => 6
    case _ => 0
  }

  lemma ExitAdvances(s: State, g: Ghost, b: Bias, t: nat, x: Choice)
    requires Inv(s, g, b) && TaskIn(s, t) && Exits(s.pc[t]) && s.waitLock in {None, t}
    ensures var s' := Step(s, t, b, x);
            && (s'.pc[t] == Idle || Exits(s'.pc[t])) && s'.waitLock in {None, t}
            && ExitLeft(s'.pc[t]) < ExitLeft(s.pc[t])
  {
    hide WakeOk, CountOk;
    assert TaskOk(s, g, t);
  }

  /** Every way out ends after at most ten steps, a downgraded writer's as a reader's. */
  lemma {:induction false} ExitAlone(s: State, g: Ghost, b: Bias, t: nat, x: Choice) returns (n: nat)
    requires Inv(s, g, b) && TaskIn(s, t) && (s.pc[t] == Idle || Exits(s.pc[t])) && s.waitLock in {None, t}
    ensures n <= ExitLeft(s.pc[t]) <= 10 && Alone(s, t, b, x, n).pc[t] == Idle
    decreases ExitLeft(s.pc[t])
  {
    hide Step, CountOk, TaskOk, WakeOk, Fits;
    if s.pc[t] == Idle {
      n := 0;
    } else {
      ExitAdvances(s, g, b, t, x);
      StepKeepsInv(s, g, b, t, x);
      n := ExitAlone(Step(s, t, b, x), Recorded(s, g, t, Step(s, t, b, x)), b, t, x);
      n := n + 1;
    }
  }

  lemma IdleHasNothing(s: State, g: Ghost, b: Bias, t: nat)
    requires Inv(s, g, b) && TaskIn(s, t) && s.pc[t] == Idle
    ensures t !in g.readers && s.owner != t && s.waitLock != t
  {
    assert TaskOk(s, g, t);
  }

  /** When all tasks are done, the counter is the bias again and the locks are free. */
  lemma QuietIsFresh(s: State, g: Ghost, b: Bias)
    requires Inv(s, g, b) && forall t :: TaskIn(s, t) ==> s.pc[t] == Idle
    ensures s.readers == b.reader && s.owner == None && s.waitLock == None
  {
    hide TaskOk;
    if r: nat :| r in g.readers {
      IdleHasNothing(s, g, b, r);
    } else if TaskIn(s, s.owner) {
      IdleHasNothing(s, g, b, s.owner);
    } else if TaskIn(s, s.waitLock) {
      IdleHasNothing(s, g, b, s.waitLock);
    }
  }
}
