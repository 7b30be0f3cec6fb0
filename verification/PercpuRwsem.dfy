/** The per-CPU reader/writer semaphore of tests/locking/percpu-rwsem.c: readers count themselves in
    and out on whatever CPU they run, a writer blocks new readers and adds the counters up, one CPU
    after the other.

    One transition is one access to shared memory; what the waiter list lock protects counts as one
    access where the list is changed. Any number of tasks and CPUs. The counters are 32 bits wide and
    wrap around. rcu_sync is taken at its word: while a writer is between enter and exit, no reader
    takes the fast path. */
module PercpuRwsem {

  const None := -1

  /** The counters and their sum are of type int: residues modulo 2^32. */
  const Modulus := 0x1_0000_0000

  /** Who a trylock is for: the caller before it queues, the caller with the waiter list locked, or
      the first waiter, by the wake function. */
  datatype For = Direct(once: bool) | Queued | Behalf

  datatype Pc =
    | Idle
    // __percpu_down_read_trylock
    | ReadInc(on: For) | ReadCheck(on: For) | ReadDec(on: For)
    | Reading
    // percpu_rwsem_wait
    | LockQueue(reader: bool) | Enqueue(reader: bool) | UnlockQueue(reader: bool, got: bool) | Waiting(reader: bool)
    // percpu_down_write
    | SyncEnter | WriteTest(on: For) | WriteXchg(on: For)
    | Summing(cpu: nat, sum: int)
    | Writing
    // percpu_up_write; Grant is percpu_rwsem_wake_function after its trylock has succeeded
    | LockWake | Waking | Grant(reader: bool) | UnlockWake | SyncExit

  /** A task, and the CPU on which it runs its read trylock. */
  datatype Local = Local(pc: Pc, cpu: nat)

  datatype Entry = Entry(task: nat, reader: bool)

  /** `pinned[i]` is the task that has preemption disabled in a read trylock on CPU `i`; `syncing` are
      the writers between rcu_sync_enter and rcu_sync_exit; `granted[t]` says that the private field
      of `t`'s queue entry is NULL. */
  datatype State = State(count: seq<int>, pinned: seq<int>, block: bool, syncing: set<nat>,
                         waiters: seq<Entry>, queueLock: int, granted: seq<bool>, local: seq<Local>)

  /** What the environment decides: read or write, whether to only try, and the CPU to run on. */
  datatype Choice = Choice(write: bool, once: bool, cpu: nat)

  function Wrap(n: int): (r: int)
    ensures 0 <= r < Modulus
  {
    n % Modulus
  }

  ghost predicate Sized(s: State) { |s.pinned| == |s.count| && |s.granted| == |s.local| }

  /** What the next access of `t` touches exists. */
  predicate TaskIn(s: State, t: int) { 0 <= t < |s.local| }

  predicate StepOk(s: State, t: int)
    requires TaskIn(s, t)
  {
    var me := s.local[t];
    && (me.pc.ReadCheck? || me.pc.ReadDec? ==> me.cpu < |s.count|)
    && (me.pc.Grant? ==> s.waiters != [] && TaskIn(s, s.waiters[0].task))
  }

  // ---------------------------------------------------------------------------
  // Transitions
  // ---------------------------------------------------------------------------

  function Goto(s: State, t: nat, pc: Pc): State
    requires t < |s.local|
  {
    s.(local := s.local[t := s.local[t].(pc := pc)])
  }

  function Add(s: State, cpu: nat, n: int): State
    requires cpu < |s.count|
  {
    s.(count := s.count[cpu := Wrap(s.count[cpu] + n)])
  }

  /** Where a trylock of `t` leads. */
  function Tried(on: For, reader: bool, got: bool): Pc {
    match on
    case Direct(once) =>
      if got then (if reader then Reading else Summing(0, 0))
      else if once && reader then Idle else LockQueue(reader)
    case Queued => if got then UnlockQueue(reader, true) else Enqueue(reader)
    case Behalf => if got then Grant(reader) else UnlockWake
  }

  function ReadStep(s: State, t: nat, x: Choice): (s': State)
    requires Sized(s) && t < |s.local| && StepOk(s, t)
    ensures Sized(s') && |s'.local| == |s.local| && |s'.count| == |s.count|
  {
    var me := s.local[t];
    match me.pc
    case Idle =>
      if x.write then Goto(s, t, SyncEnter)
      else if s.syncing == {} && x.cpu < |s.count| then Goto(Add(s, x.cpu, 1), t, Reading)
      else Goto(s, t, ReadInc(Direct(x.once)))
    case ReadInc(on) =>
      if x.cpu < |s.count| && s.pinned[x.cpu] == None
      then Add(s, x.cpu, 1).(pinned := s.pinned[x.cpu := t], local := s.local[t := Local(ReadCheck(on), x.cpu)])
      else s
    case ReadCheck(on) =>
      if s.block then Goto(s, t, ReadDec(on))
      else Goto(s.(pinned := s.pinned[me.cpu := None]), t, Tried(on, true, true))
    case ReadDec(on) =>
      Goto(Add(s, me.cpu, -1).(pinned := s.pinned[me.cpu := None]), t, Tried(on, true, false))
    case Reading => if x.cpu < |s.count| then Goto(Add(s, x.cpu, -1), t, Idle) else s
    case _ => s
  }

  function QueueStep(s: State, t: nat): (s': State)
    requires Sized(s) && t < |s.local| && StepOk(s, t)
    ensures Sized(s') && |s'.local| == |s.local| && |s'.count| == |s.count|
  {
    match s.local[t].pc
    case LockQueue(reader) =>
      if s.queueLock == None
      then Goto(s.(queueLock := t), t, if reader then ReadInc(Queued) else WriteTest(Queued)) else s
    case Enqueue(reader) =>
      Goto(s.(waiters := s.waiters + [Entry(t, reader)], granted := s.granted[t := false]), t,
           UnlockQueue(reader, false))
    case UnlockQueue(reader, got) =>
      Goto(s.(queueLock := None), t, if !got then Waiting(reader) else if reader then Reading else Summing(0, 0))
    case Waiting(reader) =>
      if s.granted[t] then Goto(s, t, if reader then Reading else Summing(0, 0)) else s
    case _ => s
  }

  function WriteStep(s: State, t: nat): (s': State)
    requires Sized(s) && t < |s.local| && StepOk(s, t)
    ensures Sized(s') && |s'.local| == |s.local| && |s'.count| == |s.count|
  {
    match s.local[t].pc
    case SyncEnter => Goto(s.(syncing := s.syncing + {t}), t, WriteTest(Direct(false)))
    case WriteTest(on) => Goto(s, t, if s.block then Tried(on, false, false) else WriteXchg(on))
    case WriteXchg(on) => Goto(s.(block := true), t, Tried(on, false, !s.block))
    case Summing(cpu, sum) =>
      Goto(s, t, if cpu < |s.count| then Summing(cpu + 1, Wrap(sum + s.count[cpu]))
                 else if sum == 0 then Writing else Summing(0, 0))
    case Writing => Goto(s.(block := false), t, LockWake)
    case LockWake => if s.queueLock == None then Goto(s.(queueLock := t), t, Waking) else s
    case Waking =>
      Goto(s, t, if s.waiters == [] then UnlockWake
                 else if s.waiters[0].reader then ReadInc(Behalf) else WriteTest(Behalf))
    case Grant(reader) =>
      Goto(s.(waiters := s.waiters[1..], granted := s.granted[s.waiters[0].task := true]), t,
           if reader then Waking else UnlockWake)
    case UnlockWake => Goto(s.(queueLock := None), t, SyncExit)
    case SyncExit => Goto(s.(syncing := s.syncing - {t}), t, Idle)
    case _ => s
  }

  predicate Reads(pc: Pc) { pc.Idle? || pc.ReadInc? || pc.ReadCheck? || pc.ReadDec? || pc.Reading? }

  predicate Queues(pc: Pc) { pc.LockQueue? || pc.Enqueue? || pc.UnlockQueue? || pc.Waiting? }

  predicate Writes(pc: Pc) { !Reads(pc) && !Queues(pc) }

  /** In percpu_down_write, until percpu_up_write clears `block`. */
  predicate Blocks(pc: Pc) { pc.SyncEnter? || pc.WriteTest? || pc.WriteXchg? || pc.Summing? || pc.Writing? }

  /** In percpu_up_write after that, outside of trylocks. */
  predicate Wakes(pc: Pc) { pc.LockWake? || pc.Waking? || pc.UnlockWake? || pc.SyncExit? }

  function Step(s: State, t: nat, x: Choice): (s': State)
    requires Sized(s) && t < |s.local| && StepOk(s, t)
    ensures Sized(s') && |s'.local| == |s.local| && |s'.count| == |s.count|
  {
    if Reads(s.local[t].pc) then ReadStep(s, t, x)
    else if Queues(s.local[t].pc) then QueueStep(s, t)
    else WriteStep(s, t)
  }

  // ---------------------------------------------------------------------------
  // What the code does not store
  // ---------------------------------------------------------------------------

  /** `t` has the semaphore for reading, or has got it for the first waiter. */
  predicate HasRead(s: State, t: int)
    requires TaskIn(s, t) && |s.granted| == |s.local|
  {
    var pc := s.local[t].pc;
    pc.Reading? || pc == UnlockQueue(true, true) || (pc == Waiting(true) && s.granted[t]) || pc == Grant(true)
  }

  /** `t` has set `block`, or it has been set for `t`. */
  predicate HasBlock(s: State, t: int)
    requires TaskIn(s, t) && |s.granted| == |s.local|
  {
    var pc := s.local[t].pc;
    || pc.Summing? || pc.Writing? || pc == UnlockQueue(false, true)
    || (pc == Waiting(false) && s.granted[t]) || pc == Grant(false)
  }

  predicate HoldsQueue(pc: Pc) {
    || ((pc.ReadInc? || pc.ReadCheck? || pc.ReadDec? || pc.WriteTest? || pc.WriteXchg?) && !pc.on.Direct?)
    || pc.Enqueue? || pc.UnlockQueue? || pc.Waking? || pc.Grant? || pc.UnlockWake?
  }

  /** Still to look at the first waiter. */
  predicate WillWake(pc: Pc) {
    || pc.LockWake? || pc.Waking? || pc == Grant(true)
    || pc == ReadInc(Behalf) || pc == ReadCheck(Behalf) || pc == WriteTest(Behalf) || pc == WriteXchg(Behalf)
  }

  /** Between rcu_sync_enter and rcu_sync_exit. */
  predicate Syncs(s: State, t: int)
    requires TaskIn(s, t)
  {
    var pc := s.local[t].pc;
    || (Blocks(pc) && !pc.SyncEnter?) || WillWake(pc) || pc.Grant? || pc.UnlockWake? || pc.SyncExit?
    || pc == ReadDec(Behalf)
    || ((pc.LockQueue? || pc.Enqueue? || pc.UnlockQueue? || pc.Waiting?) && !pc.reader)
  }

  /** Has failed its trylock with the waiter list locked, and will queue. */
  predicate WillQueue(pc: Pc) { pc == ReadDec(Queued) || pc.Enqueue? }

  /** `net[i]` is what CPU `i`'s counter says without the trylock running there, not reduced modulo
      2^32; `sum` is the same for the writer's sum. */
  datatype Ghost = Ghost(readers: set<nat>, net: seq<int>, sum: int, writer: int, wakers: set<nat>)

  function Sum(s: seq<int>): int { if s == [] then 0 else s[0] + Sum(s[1..]) }

  function Recorded(s: State, g: Ghost, t: nat, s': State, x: Choice): (g': Ghost)
    requires Sized(s) && Sized(s') && t < |s.local| == |s'.local| && |g.net| == |s.count| && StepOk(s, t)
    ensures |g'.net| == |g.net|
  {
    var pc, pc' := s.local[t].pc, s'.local[t].pc;
    var cpu := if pc.ReadCheck? then s.local[t].cpu else x.cpu;
    var had, has := HasRead(s, t), HasRead(s', t);
    if pc.Grant? then
      var f := s.waiters[0].task;
      g.(readers := if pc.reader then g.readers - {t} + {f} else g.readers,
         writer := if pc.reader then g.writer else f,
         wakers := if WillWake(pc') then g.wakers + {t} else g.wakers - {t})
    else
      Ghost(if had == has then g.readers else if has then g.readers + {t} else g.readers - {t},
            if had == has || cpu >= |g.net| then g.net else g.net[cpu := g.net[cpu] + if has then 1 else -1],
            if pc.Summing? && pc.cpu < |s.count|
            then g.sum + g.net[pc.cpu] + (if s.pinned[pc.cpu] == None then 0 else 1)
            else if pc'.Summing? then 0 else g.sum,
            if HasBlock(s, t) == HasBlock(s', t) then g.writer else if HasBlock(s', t) then t else None,
            if WillWake(pc') then g.wakers + {t} else g.wakers - {t})
  }

  // ---------------------------------------------------------------------------
  // Invariants
  // ---------------------------------------------------------------------------

  ghost predicate Fits(s: State, g: Ghost) { Sized(s) && |g.net| == |s.count| }

  /** The sets and owners name exactly the tasks they should. */
  ghost predicate RolesOk(s: State, g: Ghost, t: nat)
    requires Fits(s, g) && TaskIn(s, t)
  {
    && (t in g.readers <==> HasRead(s, t))
    && (t == g.writer <==> HasBlock(s, t))
    && (t == s.queueLock <==> HoldsQueue(s.local[t].pc))
    && (t in g.wakers <==> WillWake(s.local[t].pc))
    && (t in s.syncing <==> Syncs(s, t))
  }

  predicate OnBehalf(pc: Pc) {
    (pc.ReadInc? || pc.ReadCheck? || pc.ReadDec? || pc.WriteTest? || pc.WriteXchg?) && pc.on.Behalf?
  }

  /** Trylocks run where they say, wake-ups serve the first waiter, and who waits is queued. */
  ghost predicate PlaceOk(s: State, t: nat)
    requires Sized(s) && TaskIn(s, t)
  {
    var pc := s.local[t].pc;
    && (pc.ReadCheck? || pc.ReadDec? ==> s.local[t].cpu < |s.count| && s.pinned[s.local[t].cpu] == t)
    && (OnBehalf(pc) ==> s.waiters != [] && (s.waiters[0].reader <==> !pc.WriteTest? && !pc.WriteXchg?))
    && (pc.Grant? ==> s.waiters != [] && s.waiters[0].reader == pc.reader)
    && (pc.UnlockQueue? && !pc.got ==> !s.granted[t])
    && ((pc.Waiting? && !s.granted[t]) || (pc.UnlockQueue? && !pc.got) ==> Entry(t, pc.reader) in s.waiters)
  }

  predicate EntryOk(s: State, i: nat)
    requires Sized(s) && i < |s.waiters|
  {
    var e := s.waiters[i];
    && TaskIn(s, e.task) && !s.granted[e.task]
    && (s.local[e.task].pc == Waiting(e.reader) || s.local[e.task].pc == UnlockQueue(e.reader, false))
  }

  predicate Apart(s: State, i: nat, j: nat)
    requires i < |s.waiters| && j < |s.waiters|
  {
    i != j ==> s.waiters[i].task != s.waiters[j].task
  }

  predicate CpuOk(s: State, g: Ghost, i: nat)
    requires Sized(s) && |g.net| == |s.count| && i < |s.count|
  {
    && s.count[i] == Wrap(g.net[i] + if s.pinned[i] == None then 0 else 1)
    && (s.pinned[i] == None || (TaskIn(s, s.pinned[i])
          && (s.local[s.pinned[i]].pc.ReadCheck? || s.local[s.pinned[i]].pc.ReadDec?)
          && s.local[s.pinned[i]].cpu == i))
  }

  ghost predicate OwnersOk(s: State, g: Ghost) {
    && (s.block <==> g.writer != None)
    && (g.writer == None || TaskIn(s, g.writer)) && (s.queueLock == None || TaskIn(s, s.queueLock))
    && (forall t :: t in g.readers ==> TaskIn(s, t))
    && (forall t :: t in g.wakers ==> TaskIn(s, t))
  }

  /** The readers are what the counters add up to. While the writer adds them up, what it has and
      what it has still to see is never too little, and can be too much only by readers that left on
      a CPU already seen and trylocks seen before they took their increment back. */
  ghost predicate SumOk(s: State, g: Ghost)
    requires Fits(s, g)
  {
    && Sum(g.net) == |g.readers| <= |s.local|
    && (TaskIn(s, g.writer) ==>
          var pc := s.local[g.writer].pc;
          && (pc.Summing? ==>
                && pc.cpu <= |s.count| && pc.sum == Wrap(g.sum)
                && |g.readers| <= g.sum + Sum(g.net[pc.cpu..]) <= |s.local| + pc.cpu)
          && (pc.Writing? ==> g.readers == {}))
  }

  /** Somebody will wake a task that has queued or will. */
  ghost predicate WakeOk(s: State, g: Ghost) {
    s.waiters != [] || (TaskIn(s, s.queueLock) && WillQueue(s.local[s.queueLock].pc)) ==> s.block || g.wakers != {}
  }

  ghost predicate TaskOk(s: State, g: Ghost, t: nat)
    requires Fits(s, g)
  {
    TaskIn(s, t) ==> RolesOk(s, g, t) && PlaceOk(s, t)
  }

  ghost predicate Inv(s: State, g: Ghost) {
    && Fits(s, g) && OwnersOk(s, g) && SumOk(s, g) && WakeOk(s, g)
    && (forall t: nat :: TaskOk(s, g, t))
    && (forall i: nat :: i < |s.count| ==> CpuOk(s, g, i))
    && (forall i: nat :: i < |s.waiters| ==> EntryOk(s, i))
    && (forall i: nat, j: nat :: i < |s.waiters| && j < |s.waiters| ==> Apart(s, i, j))
  }

  /** What a step needs to know of the first waiter. */
  ghost predicate HeadOk(s: State, g: Ghost)
    requires Fits(s, g)
  {
    s.waiters != [] ==> EntryOk(s, 0) && TaskOk(s, g, s.waiters[0].task)
  }

  /** What most steps of `t` need to know. */
  ghost predicate Near(s: State, g: Ghost, t: nat) { Fits(s, g) && TaskIn(s, t) && TaskOk(s, g, t) && OwnersOk(s, g) }

  ghost predicate Scene(s: State, g: Ghost, t: nat)
    requires Fits(s, g)
  {
    && TaskIn(s, t) && TaskOk(s, g, t) && OwnersOk(s, g) && HeadOk(s, g)
    && (TaskIn(s, g.writer) ==> TaskOk(s, g, g.writer))
  }

  /** Entry `i`, if there is one. */
  ghost predicate EntryIn(s: State, i: nat)
    requires Sized(s)
  {
    i < |s.waiters| ==> EntryOk(s, i)
  }

  predicate ApartIn(s: State, i: nat, j: nat) { i < |s.waiters| && j < |s.waiters| ==> Apart(s, i, j) }

  lemma WrapAdd(a: int, b: int)
    ensures Wrap(Wrap(a) + b) == Wrap(a + b)
  {
  }

  /** A step of `t` changes nothing that the roles of `y` depend on. */
  ghost predicate Spares(s: State, g: Ghost, t: nat, s': State, y: nat)
    requires Sized(s) && Sized(s') && TaskIn(s, t) && TaskIn(s, y) && |s'.local| == |s.local|
  {
    && s'.local[y] == s.local[y] && s'.granted[y] == s.granted[y] && (y in s'.syncing <==> y in s.syncing)
    && (s'.queueLock == s.queueLock || {s.queueLock, s'.queueLock} <= {None, t})
    && (HasBlock(s', t) && !HasBlock(s, t) ==> g.writer == None)
  }

  lemma RolesSpared(s: State, g: Ghost, t: nat, s': State, x: Choice, y: nat)
    requires Fits(s, g) && Fits(s', g) && TaskIn(s, t) && TaskIn(s, y) && y != t && |s'.local| == |s.local|
    requires Spares(s, g, t, s', y) && RolesOk(s, g, t) && RolesOk(s, g, y) && StepOk(s, t)
    requires !s.local[t].pc.Grant?
    ensures Fits(s', Recorded(s, g, t, s', x)) && RolesOk(s', Recorded(s, g, t, s', x), y)
  {
  }

  // The roles of the tasks that do not step.

  lemma SparesRead(s: State, g: Ghost, t: nat, x: Choice, y: nat)
    requires Near(s, g, t) && Reads(s.local[t].pc)
    requires TaskIn(s, y) && y != t
    ensures StepOk(s, t)
    ensures var s' := ReadStep(s, t, x); |s'.local| == |s.local| && Sized(s') && Spares(s, g, t, s', y)
  {
    hide Wrap;
  }

  lemma SparesQueue(s: State, g: Ghost, t: nat, x: Choice, y: nat)
    requires Near(s, g, t) && Queues(s.local[t].pc)
    requires TaskIn(s, y) && y != t
    ensures StepOk(s, t)
    ensures var s' := QueueStep(s, t); |s'.local| == |s.local| && Sized(s') && Spares(s, g, t, s', y)
  {
    hide Wrap;
  }

  lemma SparesWrite(s: State, g: Ghost, t: nat, x: Choice, y: nat)
    requires Near(s, g, t) && Writes(s.local[t].pc) && !s.local[t].pc.Grant?
    requires TaskIn(s, y) && y != t
    ensures StepOk(s, t)
    ensures var s' := WriteStep(s, t); |s'.local| == |s.local| && Sized(s') && Spares(s, g, t, s', y)
  {
    hide Wrap;
  }

  // The roles of the stepping task, and where tasks are, by part of the code.

  lemma RolesIdle(s: State, g: Ghost, t: nat, x: Choice)
    requires Near(s, g, t) && s.local[t].pc.Idle?
    ensures StepOk(s, t)
    ensures var s' := ReadStep(s, t, x); var g' := Recorded(s, g, t, s', x);
            Fits(s', g') && RolesOk(s', g', t)
  {
    hide Wrap;
  }

  lemma OwnersIdle(s: State, g: Ghost, t: nat, x: Choice)
    requires Near(s, g, t) && s.local[t].pc.Idle?
    ensures StepOk(s, t)
    ensures var s' := ReadStep(s, t, x); var g' := Recorded(s, g, t, s', x);
            Fits(s', g') && OwnersOk(s', g')
  {
    hide Wrap;
  }

  lemma PlaceIdle(s: State, g: Ghost, t: nat, x: Choice)
    requires Near(s, g, t) && s.local[t].pc.Idle?
    ensures StepOk(s, t)
    ensures var s' := ReadStep(s, t, x); var g' := Recorded(s, g, t, s', x);
            Fits(s', g') && PlaceOk(s', t)
  {
    hide Wrap;
  }

  lemma PlaceOtherIdle(s: State, g: Ghost, t: nat, x: Choice, y: nat)
    requires Near(s, g, t) && s.local[t].pc.Idle?
    requires TaskIn(s, y) && y != t && TaskOk(s, g, y)
    ensures StepOk(s, t)
    ensures var s' := ReadStep(s, t, x); var g' := Recorded(s, g, t, s', x);
            Fits(s', g') && PlaceOk(s', y)
  {
    hide Wrap;
  }

  lemma CpuIdle(s: State, g: Ghost, t: nat, x: Choice, i: nat)
    requires Near(s, g, t) && s.local[t].pc.Idle?
    requires i < |s.count| && CpuOk(s, g, i)
    ensures StepOk(s, t)
    ensures var s' := ReadStep(s, t, x); var g' := Recorded(s, g, t, s', x);
            Fits(s', g') && CpuOk(s', g', i)
  {
    hide Wrap;
    WrapAdd(g.net[i] + (if s.pinned[i] == None then 0 else 1), 1);
    WrapAdd(g.net[i] + (if s.pinned[i] == None then 0 else 1), -1);
  }

  lemma RolesReading(s: State, g: Ghost, t: nat, x: Choice)
    requires Near(s, g, t) && s.local[t].pc.Reading?
    ensures StepOk(s, t)
    ensures var s' := ReadStep(s, t, x); var g' := Recorded(s, g, t, s', x);
            Fits(s', g') && RolesOk(s', g', t)
  {
    hide Wrap;
  }

  lemma OwnersReading(s: State, g: Ghost, t: nat, x: Choice)
    requires Near(s, g, t) && s.local[t].pc.Reading?
    ensures StepOk(s, t)
    ensures var s' := ReadStep(s, t, x); var g' := Recorded(s, g, t, s', x);
            Fits(s', g') && OwnersOk(s', g')
  {
    hide Wrap;
  }

  lemma PlaceReading(s: State, g: Ghost, t: nat, x: Choice)
    requires Near(s, g, t) && s.local[t].pc.Reading?
    ensures StepOk(s, t)
    ensures var s' := ReadStep(s, t, x); var g' := Recorded(s, g, t, s', x);
            Fits(s', g') && PlaceOk(s', t)
  {
    hide Wrap;
  }

  lemma PlaceOtherReading(s: State, g: Ghost, t: nat, x: Choice, y: nat)
    requires Near(s, g, t) && s.local[t].pc.Reading?
    requires TaskIn(s, y) && y != t && TaskOk(s, g, y)
    ensures StepOk(s, t)
    ensures var s' := ReadStep(s, t, x); var g' := Recorded(s, g, t, s', x);
            Fits(s', g') && PlaceOk(s', y)
  {
    hide Wrap;
  }

  lemma CpuReading(s: State, g: Ghost, t: nat, x: Choice, i: nat)
    requires Near(s, g, t) && s.local[t].pc.Reading?
    requires i < |s.count| && CpuOk(s, g, i)
    ensures StepOk(s, t)
    ensures var s' := ReadStep(s, t, x); var g' := Recorded(s, g, t, s', x);
            Fits(s', g') && CpuOk(s', g', i)
  {
    hide Wrap;
    WrapAdd(g.net[i] + (if s.pinned[i] == None then 0 else 1), 1);
    WrapAdd(g.net[i] + (if s.pinned[i] == None then 0 else 1), -1);
  }

  lemma RolesInc(s: State, g: Ghost, t: nat, x: Choice)
    requires Near(s, g, t) && s.local[t].pc.ReadInc?
    ensures StepOk(s, t)
    ensures var s' := ReadStep(s, t, x); var g' := Recorded(s, g, t, s', x);
            Fits(s', g') && RolesOk(s', g', t)
  {
    hide Wrap;
  }

  lemma OwnersInc(s: State, g: Ghost, t: nat, x: Choice)
    requires Near(s, g, t) && s.local[t].pc.ReadInc?
    ensures StepOk(s, t)
    ensures var s' := ReadStep(s, t, x); var g' := Recorded(s, g, t, s', x);
            Fits(s', g') && OwnersOk(s', g')
  {
    hide Wrap;
  }

  lemma PlaceInc(s: State, g: Ghost, t: nat, x: Choice)
    requires Near(s, g, t) && s.local[t].pc.ReadInc?
    ensures StepOk(s, t)
    ensures var s' := ReadStep(s, t, x); var g' := Recorded(s, g, t, s', x);
            Fits(s', g') && PlaceOk(s', t)
  {
    hide Wrap;
  }

  lemma PlaceOtherInc(s: State, g: Ghost, t: nat, x: Choice, y: nat)
    requires Near(s, g, t) && s.local[t].pc.ReadInc?
    requires TaskIn(s, y) && y != t && TaskOk(s, g, y)
    ensures StepOk(s, t)
    ensures var s' := ReadStep(s, t, x); var g' := Recorded(s, g, t, s', x);
            Fits(s', g') && PlaceOk(s', y)
  {
    hide Wrap;
  }

  lemma CpuInc(s: State, g: Ghost, t: nat, x: Choice, i: nat)
    requires Near(s, g, t) && s.local[t].pc.ReadInc?
    requires i < |s.count| && CpuOk(s, g, i)
    ensures StepOk(s, t)
    ensures var s' := ReadStep(s, t, x); var g' := Recorded(s, g, t, s', x);
            Fits(s', g') && CpuOk(s', g', i)
  {
    hide Wrap;
    WrapAdd(g.net[i], 1);
    WrapAdd(g.net[i] + 1, -1);
  }

  lemma RolesCheck(s: State, g: Ghost, t: nat, x: Choice)
    requires Near(s, g, t) && s.local[t].pc.ReadCheck?
    ensures StepOk(s, t)
    ensures var s' := ReadStep(s, t, x); var g' := Recorded(s, g, t, s', x);
            Fits(s', g') && RolesOk(s', g', t)
  {
    hide Wrap;
  }

  lemma OwnersCheck(s: State, g: Ghost, t: nat, x: Choice)
    requires Near(s, g, t) && s.local[t].pc.ReadCheck?
    ensures StepOk(s, t)
    ensures var s' := ReadStep(s, t, x); var g' := Recorded(s, g, t, s', x);
            Fits(s', g') && OwnersOk(s', g')
  {
    hide Wrap;
  }

  lemma PlaceCheck(s: State, g: Ghost, t: nat, x: Choice)
    requires Near(s, g, t) && s.local[t].pc.ReadCheck?
    ensures StepOk(s, t)
    ensures var s' := ReadStep(s, t, x); var g' := Recorded(s, g, t, s', x);
            Fits(s', g') && PlaceOk(s', t)
  {
    hide Wrap;
  }

  lemma PlaceOtherCheck(s: State, g: Ghost, t: nat, x: Choice, y: nat)
    requires Near(s, g, t) && s.local[t].pc.ReadCheck?
    requires TaskIn(s, y) && y != t && TaskOk(s, g, y)
    ensures StepOk(s, t)
    ensures var s' := ReadStep(s, t, x); var g' := Recorded(s, g, t, s', x);
            Fits(s', g') && PlaceOk(s', y)
  {
    hide Wrap;
  }

  lemma CpuCheck(s: State, g: Ghost, t: nat, x: Choice, i: nat)
    requires Near(s, g, t) && s.local[t].pc.ReadCheck?
    requires i < |s.count| && CpuOk(s, g, i)
    ensures StepOk(s, t)
    ensures var s' := ReadStep(s, t, x); var g' := Recorded(s, g, t, s', x);
            Fits(s', g') && CpuOk(s', g', i)
  {
    hide Wrap;
  }

  lemma RolesDec(s: State, g: Ghost, t: nat, x: Choice)
    requires Near(s, g, t) && s.local[t].pc.ReadDec?
    ensures StepOk(s, t)
    ensures var s' := ReadStep(s, t, x); var g' := Recorded(s, g, t, s', x);
            Fits(s', g') && RolesOk(s', g', t)
  {
    hide Wrap;
  }

  lemma OwnersDec(s: State, g: Ghost, t: nat, x: Choice)
    requires Near(s, g, t) && s.local[t].pc.ReadDec?
    ensures StepOk(s, t)
    ensures var s' := ReadStep(s, t, x); var g' := Recorded(s, g, t, s', x);
            Fits(s', g') && OwnersOk(s', g')
  {
    hide Wrap;
  }

  lemma PlaceDec(s: State, g: Ghost, t: nat, x: Choice)
    requires Near(s, g, t) && s.local[t].pc.ReadDec?
    ensures StepOk(s, t)
    ensures var s' := ReadStep(s, t, x); var g' := Recorded(s, g, t, s', x);
            Fits(s', g') && PlaceOk(s', t)
  {
    hide Wrap;
  }

  lemma PlaceOtherDec(s: State, g: Ghost, t: nat, x: Choice, y: nat)
    requires Near(s, g, t) && s.local[t].pc.ReadDec?
    requires TaskIn(s, y) && y != t && TaskOk(s, g, y)
    ensures StepOk(s, t)
    ensures var s' := ReadStep(s, t, x); var g' := Recorded(s, g, t, s', x);
            Fits(s', g') && PlaceOk(s', y)
  {
    hide Wrap;
  }

  lemma CpuDec(s: State, g: Ghost, t: nat, x: Choice, i: nat)
    requires Near(s, g, t) && s.local[t].pc.ReadDec?
    requires i < |s.count| && CpuOk(s, g, i)
    ensures StepOk(s, t)
    ensures var s' := ReadStep(s, t, x); var g' := Recorded(s, g, t, s', x);
            Fits(s', g') && CpuOk(s', g', i)
  {
    hide Wrap;
    WrapAdd(g.net[i], 1);
    WrapAdd(g.net[i] + 1, -1);
  }

  lemma RolesLock(s: State, g: Ghost, t: nat, x: Choice)
    requires Near(s, g, t) && (s.local[t].pc.LockQueue? || s.local[t].pc.UnlockQueue?)
    ensures StepOk(s, t)
    ensures var s' := QueueStep(s, t); var g' := Recorded(s, g, t, s', x);
            Fits(s', g') && RolesOk(s', g', t)
  {
    hide PlaceOk;
    hide Wrap;
  }

  lemma OwnersLock(s: State, g: Ghost, t: nat, x: Choice)
    requires Near(s, g, t) && (s.local[t].pc.LockQueue? || s.local[t].pc.UnlockQueue?)
    ensures StepOk(s, t)
    ensures var s' := QueueStep(s, t); var g' := Recorded(s, g, t, s', x);
            Fits(s', g') && OwnersOk(s', g')
  {
    hide Wrap;
  }

  lemma PlaceLock(s: State, g: Ghost, t: nat, x: Choice)
    requires Near(s, g, t) && (s.local[t].pc.LockQueue? || s.local[t].pc.UnlockQueue?)
    ensures StepOk(s, t)
    ensures var s' := QueueStep(s, t); var g' := Recorded(s, g, t, s', x);
            Fits(s', g') && PlaceOk(s', t)
  {
    hide Wrap;
  }

  lemma PlaceOtherLock(s: State, g: Ghost, t: nat, x: Choice, y: nat)
    requires Near(s, g, t) && (s.local[t].pc.LockQueue? || s.local[t].pc.UnlockQueue?)
    requires TaskIn(s, y) && y != t && TaskOk(s, g, y)
    ensures StepOk(s, t)
    ensures var s' := QueueStep(s, t); var g' := Recorded(s, g, t, s', x);
            Fits(s', g') && PlaceOk(s', y)
  {
    hide Wrap;
  }

  lemma CpuLock(s: State, g: Ghost, t: nat, x: Choice, i: nat)
    requires Near(s, g, t) && (s.local[t].pc.LockQueue? || s.local[t].pc.UnlockQueue?)
    requires i < |s.count| && CpuOk(s, g, i)
    ensures StepOk(s, t)
    ensures var s' := QueueStep(s, t); var g' := Recorded(s, g, t, s', x);
            Fits(s', g') && CpuOk(s', g', i)
  {
    hide Wrap;
  }

  lemma RolesEnqueue(s: State, g: Ghost, t: nat, x: Choice)
    requires Near(s, g, t) && (s.local[t].pc.Enqueue? || s.local[t].pc.Waiting?)
    ensures StepOk(s, t)
    ensures var s' := QueueStep(s, t); var g' := Recorded(s, g, t, s', x);
            Fits(s', g') && RolesOk(s', g', t)
  {
    hide PlaceOk;
    hide Wrap;
  }

  lemma OwnersEnqueue(s: State, g: Ghost, t: nat, x: Choice)
    requires Near(s, g, t) && (s.local[t].pc.Enqueue? || s.local[t].pc.Waiting?)
    ensures StepOk(s, t)
    ensures var s' := QueueStep(s, t); var g' := Recorded(s, g, t, s', x);
            Fits(s', g') && OwnersOk(s', g')
  {
    hide Wrap;
  }

  lemma PlaceEnqueue(s: State, g: Ghost, t: nat, x: Choice)
    requires Near(s, g, t) && (s.local[t].pc.Enqueue? || s.local[t].pc.Waiting?)
    ensures StepOk(s, t)
    ensures var s' := QueueStep(s, t); var g' := Recorded(s, g, t, s', x);
            Fits(s', g') && PlaceOk(s', t)
  {
    hide Wrap;
  }

  lemma PlaceOtherEnqueue(s: State, g: Ghost, t: nat, x: Choice, y: nat)
    requires Near(s, g, t) && (s.local[t].pc.Enqueue? || s.local[t].pc.Waiting?)
    requires TaskIn(s, y) && y != t && TaskOk(s, g, y)
    ensures StepOk(s, t)
    ensures var s' := QueueStep(s, t); var g' := Recorded(s, g, t, s', x);
            Fits(s', g') && PlaceOk(s', y)
  {
    hide Wrap;
  }

  lemma CpuEnqueue(s: State, g: Ghost, t: nat, x: Choice, i: nat)
    requires Near(s, g, t) && (s.local[t].pc.Enqueue? || s.local[t].pc.Waiting?)
    requires i < |s.count| && CpuOk(s, g, i)
    ensures StepOk(s, t)
    ensures var s' := QueueStep(s, t); var g' := Recorded(s, g, t, s', x);
            Fits(s', g') && CpuOk(s', g', i)
  {
    hide Wrap;
  }

  lemma RolesWrite(s: State, g: Ghost, t: nat, x: Choice)
    requires Near(s, g, t) && Blocks(s.local[t].pc)
    ensures StepOk(s, t)
    ensures var s' := WriteStep(s, t); var g' := Recorded(s, g, t, s', x);
            Fits(s', g') && RolesOk(s', g', t)
  {
    hide PlaceOk;
    hide Wrap;
  }

  lemma OwnersWrite(s: State, g: Ghost, t: nat, x: Choice)
    requires Near(s, g, t) && Blocks(s.local[t].pc)
    ensures StepOk(s, t)
    ensures var s' := WriteStep(s, t); var g' := Recorded(s, g, t, s', x);
            Fits(s', g') && OwnersOk(s', g')
  {
    hide Wrap;
  }

  lemma PlaceWrite(s: State, g: Ghost, t: nat, x: Choice)
    requires Near(s, g, t) && Blocks(s.local[t].pc)
    ensures StepOk(s, t)
    ensures var s' := WriteStep(s, t); var g' := Recorded(s, g, t, s', x);
            Fits(s', g') && PlaceOk(s', t)
  {
    hide Wrap;
  }

  lemma PlaceOtherWrite(s: State, g: Ghost, t: nat, x: Choice, y: nat)
    requires Near(s, g, t) && Blocks(s.local[t].pc)
    requires TaskIn(s, y) && y != t && TaskOk(s, g, y)
    ensures StepOk(s, t)
    ensures var s' := WriteStep(s, t); var g' := Recorded(s, g, t, s', x);
            Fits(s', g') && PlaceOk(s', y)
  {
    hide Wrap;
  }

  lemma CpuWrite(s: State, g: Ghost, t: nat, x: Choice, i: nat)
    requires Near(s, g, t) && Blocks(s.local[t].pc)
    requires i < |s.count| && CpuOk(s, g, i)
    ensures StepOk(s, t)
    ensures var s' := WriteStep(s, t); var g' := Recorded(s, g, t, s', x);
            Fits(s', g') && CpuOk(s', g', i)
  {
    hide Wrap;
  }

  lemma RolesWakes(s: State, g: Ghost, t: nat, x: Choice)
    requires Near(s, g, t) && Wakes(s.local[t].pc)
    ensures StepOk(s, t)
    ensures var s' := WriteStep(s, t); var g' := Recorded(s, g, t, s', x);
            Fits(s', g') && RolesOk(s', g', t)
  {
    hide Wrap;
  }

  lemma OwnersWakes(s: State, g: Ghost, t: nat, x: Choice)
    requires Near(s, g, t) && Wakes(s.local[t].pc)
    ensures StepOk(s, t)
    ensures var s' := WriteStep(s, t); var g' := Recorded(s, g, t, s', x);
            Fits(s', g') && OwnersOk(s', g')
  {
    hide Wrap;
  }

  lemma PlaceWakes(s: State, g: Ghost, t: nat, x: Choice)
    requires Near(s, g, t) && Wakes(s.local[t].pc)
    ensures StepOk(s, t)
    ensures var s' := WriteStep(s, t); var g' := Recorded(s, g, t, s', x);
            Fits(s', g') && PlaceOk(s', t)
  {
    hide Wrap;
  }

  lemma PlaceOtherWakes(s: State, g: Ghost, t: nat, x: Choice, y: nat)
    requires Near(s, g, t) && Wakes(s.local[t].pc)
    requires TaskIn(s, y) && y != t && TaskOk(s, g, y)
    ensures StepOk(s, t)
    ensures var s' := WriteStep(s, t); var g' := Recorded(s, g, t, s', x);
            Fits(s', g') && PlaceOk(s', y)
  {
    hide Wrap;
  }

  lemma CpuWakes(s: State, g: Ghost, t: nat, x: Choice, i: nat)
    requires Near(s, g, t) && Wakes(s.local[t].pc)
    requires i < |s.count| && CpuOk(s, g, i)
    ensures StepOk(s, t)
    ensures var s' := WriteStep(s, t); var g' := Recorded(s, g, t, s', x);
            Fits(s', g') && CpuOk(s', g', i)
  {
    hide Wrap;
  }

  lemma RolesGrant(s: State, g: Ghost, t: nat, x: Choice)
    requires Near(s, g, t) && HeadOk(s, g) && s.local[t].pc.Grant?
    ensures StepOk(s, t)
    ensures var s' := WriteStep(s, t); var g' := Recorded(s, g, t, s', x);
            Fits(s', g') && RolesOk(s', g', t)
  {
    hide Wrap;
  }

  lemma RolesOtherGrant(s: State, g: Ghost, t: nat, x: Choice, y: nat)
    requires Near(s, g, t) && HeadOk(s, g) && s.local[t].pc.Grant?
    requires TaskIn(s, y) && y != t && TaskOk(s, g, y)
    ensures StepOk(s, t)
    ensures var s' := WriteStep(s, t); var g' := Recorded(s, g, t, s', x);
            Fits(s', g') && RolesOk(s', g', y)
  {
    hide Wrap;
  }

  lemma OwnersGrant(s: State, g: Ghost, t: nat, x: Choice)
    requires Near(s, g, t) && HeadOk(s, g) && s.local[t].pc.Grant?
    ensures StepOk(s, t)
    ensures var s' := WriteStep(s, t); var g' := Recorded(s, g, t, s', x);
            Fits(s', g') && OwnersOk(s', g')
  {
    hide Wrap;
  }

  lemma PlaceGrant(s: State, g: Ghost, t: nat, x: Choice)
    requires Near(s, g, t) && HeadOk(s, g) && s.local[t].pc.Grant?
    ensures StepOk(s, t)
    ensures var s' := WriteStep(s, t); var g' := Recorded(s, g, t, s', x);
            Fits(s', g') && PlaceOk(s', t)
  {
    hide Wrap;
  }

  lemma PlaceOtherGrant(s: State, g: Ghost, t: nat, x: Choice, y: nat)
    requires Near(s, g, t) && HeadOk(s, g) && s.local[t].pc.Grant?
    requires TaskIn(s, y) && y != t && TaskOk(s, g, y)
    ensures StepOk(s, t)
    ensures var s' := WriteStep(s, t); var g' := Recorded(s, g, t, s', x);
            Fits(s', g') && PlaceOk(s', y)
  {
    hide Wrap;
  }

  lemma CpuGrant(s: State, g: Ghost, t: nat, x: Choice, i: nat)
    requires Near(s, g, t) && HeadOk(s, g) && s.local[t].pc.Grant?
    requires i < |s.count| && CpuOk(s, g, i)
    ensures StepOk(s, t)
    ensures var s' := WriteStep(s, t); var g' := Recorded(s, g, t, s', x);
            Fits(s', g') && CpuOk(s', g', i)
  {
    hide Wrap;
  }

  // The wait list.

  lemma WakeRead(s: State, g: Ghost, t: nat, x: Choice)
    requires Fits(s, g) && Scene(s, g, t) && Reads(s.local[t].pc)
    requires WakeOk(s, g) && (TaskIn(s, s.queueLock) ==> TaskOk(s, g, s.queueLock))
    ensures StepOk(s, t)
    ensures var s' := ReadStep(s, t, x); var g' := Recorded(s, g, t, s', x);
            Fits(s', g') && WakeOk(s', g')
  {
    hide Wrap;
  }

  lemma EntryRead(s: State, g: Ghost, t: nat, x: Choice, i: nat)
    requires Near(s, g, t) && HeadOk(s, g) && Reads(s.local[t].pc)
    requires EntryIn(s, i) && EntryIn(s, i + 1) && ApartIn(s, 0, i + 1)
    ensures StepOk(s, t)
    ensures var s' := ReadStep(s, t, x); var g' := Recorded(s, g, t, s', x);
            Fits(s', g') && EntryIn(s', i)
  {
    hide Wrap;
  }

  lemma ApartRead(s: State, g: Ghost, t: nat, x: Choice, i: nat, j: nat)
    requires Near(s, g, t) && HeadOk(s, g) && Reads(s.local[t].pc)
    requires EntryIn(s, i) && EntryIn(s, j) && ApartIn(s, i, j) && ApartIn(s, i + 1, j + 1)
    ensures StepOk(s, t)
    ensures var s' := ReadStep(s, t, x); var g' := Recorded(s, g, t, s', x);
            Fits(s', g') && ApartIn(s', i, j)
  {
    hide Wrap;
  }

  lemma WakeQueue(s: State, g: Ghost, t: nat, x: Choice)
    requires Fits(s, g) && Scene(s, g, t) && Queues(s.local[t].pc)
    requires WakeOk(s, g) && (TaskIn(s, s.queueLock) ==> TaskOk(s, g, s.queueLock))
    ensures StepOk(s, t)
    ensures var s' := QueueStep(s, t); var g' := Recorded(s, g, t, s', x);
            Fits(s', g') && WakeOk(s', g')
  {
    hide Wrap;
  }

  lemma EntryQueue(s: State, g: Ghost, t: nat, x: Choice, i: nat)
    requires Near(s, g, t) && HeadOk(s, g) && Queues(s.local[t].pc)
    requires EntryIn(s, i) && EntryIn(s, i + 1) && ApartIn(s, 0, i + 1)
    ensures StepOk(s, t)
    ensures var s' := QueueStep(s, t); var g' := Recorded(s, g, t, s', x);
            Fits(s', g') && EntryIn(s', i)
  {
    hide Wrap;
  }

  lemma ApartQueue(s: State, g: Ghost, t: nat, x: Choice, i: nat, j: nat)
    requires Near(s, g, t) && HeadOk(s, g) && Queues(s.local[t].pc)
    requires EntryIn(s, i) && EntryIn(s, j) && ApartIn(s, i, j) && ApartIn(s, i + 1, j + 1)
    ensures StepOk(s, t)
    ensures var s' := QueueStep(s, t); var g' := Recorded(s, g, t, s', x);
            Fits(s', g') && ApartIn(s', i, j)
  {
    hide Wrap;
  }

  lemma WakeWrite(s: State, g: Ghost, t: nat, x: Choice)
    requires Fits(s, g) && Scene(s, g, t) && Writes(s.local[t].pc)
    requires WakeOk(s, g) && (TaskIn(s, s.queueLock) ==> TaskOk(s, g, s.queueLock))
    ensures StepOk(s, t)
    ensures var s' := WriteStep(s, t); var g' := Recorded(s, g, t, s', x);
            Fits(s', g') && WakeOk(s', g')
  {
    hide Wrap;
  }

  lemma EntryWrite(s: State, g: Ghost, t: nat, x: Choice, i: nat)
    requires Near(s, g, t) && HeadOk(s, g) && Writes(s.local[t].pc)
    requires EntryIn(s, i) && EntryIn(s, i + 1) && ApartIn(s, 0, i + 1)
    ensures StepOk(s, t)
    ensures var s' := WriteStep(s, t); var g' := Recorded(s, g, t, s', x);
            Fits(s', g') && EntryIn(s', i)
  {
    hide Wrap;
  }

  lemma ApartWrite(s: State, g: Ghost, t: nat, x: Choice, i: nat, j: nat)
    requires Near(s, g, t) && HeadOk(s, g) && Writes(s.local[t].pc)
    requires EntryIn(s, i) && EntryIn(s, j) && ApartIn(s, i, j) && ApartIn(s, i + 1, j + 1)
    ensures StepOk(s, t)
    ensures var s' := WriteStep(s, t); var g' := Recorded(s, g, t, s', x);
            Fits(s', g') && ApartIn(s', i, j)
  {
    hide Wrap;
  }

  // The sums.

  lemma {:induction false} SumSet(s: seq<int>, i: nat, v: int)
    requires i < |s|
    ensures Sum(s[i := v]) == Sum(s) - s[i] + v
  {
    if i == 0 {
      assert s[i := v][1..] == s[1..];
    } else {
      assert s[i := v][1..] == s[1..][i - 1 := v];
      SumSet(s[1..], i - 1, v);
    }
  }

  lemma SumRest(s: seq<int>, k: nat, i: nat, v: int)
    requires k <= |s| && i < |s|
    ensures Sum(s[i := v][k..]) == Sum(s[k..]) + if i < k then 0 else v - s[i]
  {
    if i < k {
      assert s[i := v][k..] == s[k..];
    } else {
      assert s[i := v][k..] == s[k..][i - k := v];
      SumSet(s[k..], i - k, v);
    }
  }

  lemma SumHead(s: seq<int>, k: nat)
    requires k < |s|
    ensures Sum(s[k..]) == s[k] + Sum(s[k + 1..])
  {
    assert s[k..][1..] == s[k + 1..];
  }

  lemma SumNone(s: seq<int>, k: nat)
    requires k == |s|
    ensures Sum(s[k..]) == 0
  {
  }

  /** As many tasks as there are in a set of them. */
  lemma {:induction false} SetFits(a: set<nat>, n: nat)
    requires forall t :: t in a ==> t < n
    ensures |a| <= n
  {
    if n == 0 {
      assert a == {};
    } else {
      SetFits(a - {n - 1}, n - 1);
      assert |a| <= |a - {n - 1}| + 1 by {
        assert a == if n - 1 in a then (a - {n - 1}) + {n - 1} else a - {n - 1};
      }
    }
  }

  predicate Small(s: State) { |s.local| + |s.count| < Modulus }

  lemma WrapSmall(n: nat)
    requires n < Modulus
    ensures Wrap(n) == n
  {
  }

  predicate SameWriter(s: State, g: Ghost, s': State, g': Ghost) {
    && g'.writer == g.writer && g'.sum == g.sum && |s'.local| == |s.local| && |s'.count| == |s.count|
    && (TaskIn(s, g.writer) ==> s'.local[g.writer].pc == s.local[g.writer].pc)
  }

  /** A reader comes, when there is no writer, or goes, on any CPU. */
  lemma SumMoves(s: State, g: Ghost, s': State, g': Ghost, cpu: nat, d: int)
    requires Fits(s, g) && Fits(s', g') && SameWriter(s, g, s', g') && SumOk(s, g) && cpu < |s.count|
    requires d == -1 || (d == 1 && !TaskIn(s, g.writer))
    requires g'.net == g.net[cpu := g.net[cpu] + d] && |g'.readers| == |g.readers| + d <= |s.local|
    ensures SumOk(s', g')
  {
    hide Wrap, Sum;
    SumSet(g.net, cpu, g.net[cpu] + d);
    if TaskIn(s, g.writer) && s.local[g.writer].pc.Summing? {
      SumRest(g.net, s.local[g.writer].pc.cpu, cpu, g.net[cpu] + d);
    }
  }

  lemma SumIdle(s: State, g: Ghost, t: nat, x: Choice)
    requires Fits(s, g) && Scene(s, g, t) && SumOk(s, g) && s.local[t].pc.Idle?
    requires TaskIn(s, g.writer) ==> g.writer in s.syncing
    ensures var s' := ReadStep(s, t, x); var g' := Recorded(s, g, t, s', x);
            Fits(s', g') && SumOk(s', g')
  {
    hide Wrap, Sum, SumOk;
    var s' := ReadStep(s, t, x);
    var g' := Recorded(s, g, t, s', x);
    SetFits(g'.readers, |s.local|);
    if s'.local[t].pc.Reading? { SumMoves(s, g, s', g', x.cpu, 1); } else { SumStays(s, g, s', g'); }
  }

  lemma SumReading(s: State, g: Ghost, t: nat, x: Choice)
    requires Fits(s, g) && Scene(s, g, t) && SumOk(s, g) && s.local[t].pc.Reading?
    ensures var s' := ReadStep(s, t, x); var g' := Recorded(s, g, t, s', x);
            Fits(s', g') && SumOk(s', g')
  {
    hide Wrap, Sum, SumOk;
    var s' := ReadStep(s, t, x);
    var g' := Recorded(s, g, t, s', x);
    SetFits(g'.readers, |s.local|);
    if s'.local[t].pc.Idle? { SumMoves(s, g, s', g', x.cpu, -1); } else { SumStays(s, g, s', g'); }
  }

  lemma SumCheck(s: State, g: Ghost, t: nat, x: Choice)
    requires Fits(s, g) && Scene(s, g, t) && SumOk(s, g) && s.local[t].pc.ReadCheck?
    ensures var s' := ReadStep(s, t, x); var g' := Recorded(s, g, t, s', x);
            Fits(s', g') && SumOk(s', g')
  {
    hide Wrap, Sum, SumOk;
    var s' := ReadStep(s, t, x);
    var g' := Recorded(s, g, t, s', x);
    SetFits(g'.readers, |s.local|);
    if g'.readers == g.readers {
      SumStays(s, g, s', g');
    } else {
      SumMoves(s, g, s', g', s.local[t].cpu, 1);
    }
  }

  lemma SumTry(s: State, g: Ghost, t: nat, x: Choice)
    requires Fits(s, g) && Scene(s, g, t) && SumOk(s, g) && (s.local[t].pc.ReadInc? || s.local[t].pc.ReadDec?)
    ensures var s' := ReadStep(s, t, x); var g' := Recorded(s, g, t, s', x);
            Fits(s', g') && SumOk(s', g')
  {
    hide Wrap, Sum, SumOk;
    SumStays(s, g, ReadStep(s, t, x), Recorded(s, g, t, ReadStep(s, t, x), x));
  }

  lemma SumStays(s: State, g: Ghost, s': State, g': Ghost)
    requires Fits(s, g) && Fits(s', g') && SameWriter(s, g, s', g') && SumOk(s, g)
    requires g'.net == g.net && |g'.readers| == |g.readers| && (g.readers == {} ==> g'.readers == {})
    ensures SumOk(s', g')
  {
    hide Wrap, Sum;
  }

  /** There is no writer any more, or the writer has not begun to sum. */
  lemma SumBegins(s: State, g: Ghost, s': State, g': Ghost)
    requires Fits(s, g) && Fits(s', g') && SumOk(s, g) && |s'.local| == |s.local|
    requires g'.net == g.net && |g'.readers| == |g.readers|
    requires TaskIn(s', g'.writer) ==>
               var pc := s'.local[g'.writer].pc; !pc.Writing? && (pc.Summing? ==> pc == Summing(0, 0) && g'.sum == 0)
    ensures SumOk(s', g')
  {
    hide Wrap, Sum;
    assert g.net[0..] == g.net;
    WrapSmall(0);
  }

  lemma SumQueue(s: State, g: Ghost, t: nat, x: Choice)
    requires Fits(s, g) && Scene(s, g, t) && SumOk(s, g) && Queues(s.local[t].pc)
    ensures var s' := QueueStep(s, t); var g' := Recorded(s, g, t, s', x);
            Fits(s', g') && SumOk(s', g')
  {
    hide Wrap, Sum, SumOk;
    var s' := QueueStep(s, t);
    var g' := Recorded(s, g, t, s', x);
    if s'.local[t].pc.Summing? { SumBegins(s, g, s', g'); } else { SumSame(s, g, s', g', t); }
  }

  lemma SumSame(s: State, g: Ghost, s': State, g': Ghost, t: nat)
    requires Fits(s, g) && Fits(s', g') && SumOk(s, g) && TaskIn(s, t)
    requires g'.net == g.net && g'.readers == g.readers && g'.writer == g.writer && g'.sum == g.sum
    requires |s'.count| == |s.count| && |s'.local| == |s.local| && s'.local == s.local[t := s'.local[t]]
    requires s'.local[t].pc.Summing? || s'.local[t].pc.Writing? ==> s'.local[t].pc == s.local[t].pc
    ensures SumOk(s', g')
  {
    hide Wrap, Sum;
  }

  /** Adding up one more counter, or drawing the conclusion: a sum of zero means no reader, since
      there are too few tasks and CPUs for it to have wrapped around. */
  lemma SumSums(s: State, g: Ghost, t: nat, x: Choice)
    requires Fits(s, g) && Scene(s, g, t) && SumOk(s, g) && s.local[t].pc.Summing? && Small(s)
    requires var pc := s.local[t].pc; pc.cpu < |s.count| ==> CpuOk(s, g, pc.cpu)
    ensures var s' := WriteStep(s, t); var g' := Recorded(s, g, t, s', x);
            Fits(s', g') && SumOk(s', g')
  {
    hide Wrap, Sum;
    var pc := s.local[t].pc;
    assert g.net[0..] == g.net;
    WrapSmall(0);
    if pc.cpu < |s.count| {
      var n := g.net[pc.cpu] + if s.pinned[pc.cpu] == None then 0 else 1;
      SumHead(g.net, pc.cpu);
      WrapAdd(g.sum, n);
      WrapAdd(n, Wrap(g.sum));
    } else {
      SumNone(g.net, pc.cpu);
      WrapSmall(g.sum);
    }
  }

  lemma SumWrite(s: State, g: Ghost, t: nat, x: Choice)
    requires Fits(s, g) && Scene(s, g, t) && SumOk(s, g) && Writes(s.local[t].pc)
    requires !s.local[t].pc.Summing? && !s.local[t].pc.Grant?
    ensures var s' := WriteStep(s, t); var g' := Recorded(s, g, t, s', x);
            Fits(s', g') && SumOk(s', g')
  {
    hide Wrap, Sum, SumOk;
    var s' := WriteStep(s, t);
    var g' := Recorded(s, g, t, s', x);
    if g'.writer == g.writer { SumSame(s, g, s', g', t); } else { SumBegins(s, g, s', g'); }
  }

  lemma SumGrant(s: State, g: Ghost, t: nat, x: Choice)
    requires Fits(s, g) && Scene(s, g, t) && SumOk(s, g) && s.local[t].pc.Grant?
    ensures StepOk(s, t)
    ensures var s' := WriteStep(s, t); var g' := Recorded(s, g, t, s', x);
            Fits(s', g') && SumOk(s', g')
  {
    hide Wrap, Sum, SumOk;
    var s' := WriteStep(s, t);
    var g' := Recorded(s, g, t, s', x);
    var f := s.waiters[0].task;
    if s.local[t].pc.reader {
      assert |g.readers - {t} + {f}| == |g.readers|;
      SumStays(s, g, s', g');
    } else {
      SumBegins(s, g, s', g');
    }
  }

  // ---------------------------------------------------------------------------
  // Every step keeps the invariants
  // ---------------------------------------------------------------------------

  lemma SceneHolds(s: State, g: Ghost, t: nat)
    requires Inv(s, g) && TaskIn(s, t)
    ensures Near(s, g, t) && Scene(s, g, t) && HeadOk(s, g) && StepOk(s, t)
    ensures TaskIn(s, g.writer) ==> g.writer in s.syncing && Syncs(s, g.writer)
    ensures TaskIn(s, s.queueLock) ==> TaskOk(s, g, s.queueLock)
  {
    hide SumOk, WakeOk, CpuOk, Apart;
    assert TaskOk(s, g, t);
    if TaskIn(s, g.writer) { assert TaskOk(s, g, g.writer); }
    if TaskIn(s, s.queueLock) { assert TaskOk(s, g, s.queueLock); }
  }

  lemma TaskKept(s: State, g: Ghost, t: nat, x: Choice, y: nat)
    requires Inv(s, g) && TaskIn(s, t) && StepOk(s, t) && TaskIn(s, y)
    ensures var s' := Step(s, t, x); var g' := Recorded(s, g, t, s', x);
            Fits(s', g') && TaskOk(s', g', y)
  {
    hide SumOk, WakeOk, CpuOk, EntryOk, Apart, RolesOk, PlaceOk, HeadOk, Recorded, ReadStep, QueueStep,
      WriteStep, Scene, OwnersOk, Spares;
    SceneHolds(s, g, t);
    SceneHolds(s, g, y);
    var s' := Step(s, t, x);
    match s.local[t].pc
    case Idle =>
      if y == t { RolesIdle(s, g, t, x); PlaceIdle(s, g, t, x); }
      else { SparesRead(s, g, t, x, y); RolesSpared(s, g, t, s', x, y); PlaceOtherIdle(s, g, t, x, y); }
    case Reading =>
      if y == t { RolesReading(s, g, t, x); PlaceReading(s, g, t, x); }
      else { SparesRead(s, g, t, x, y); RolesSpared(s, g, t, s', x, y); PlaceOtherReading(s, g, t, x, y); }
    case ReadInc(_) =>
      if y == t { RolesInc(s, g, t, x); PlaceInc(s, g, t, x); }
      else { SparesRead(s, g, t, x, y); RolesSpared(s, g, t, s', x, y); PlaceOtherInc(s, g, t, x, y); }
    case ReadCheck(_) =>
      if y == t { RolesCheck(s, g, t, x); PlaceCheck(s, g, t, x); }
      else { SparesRead(s, g, t, x, y); RolesSpared(s, g, t, s', x, y); PlaceOtherCheck(s, g, t, x, y); }
    case ReadDec(_) =>
      if y == t { RolesDec(s, g, t, x); PlaceDec(s, g, t, x); }
      else { SparesRead(s, g, t, x, y); RolesSpared(s, g, t, s', x, y); PlaceOtherDec(s, g, t, x, y); }
    case Grant(_) =>
      if y == t { RolesGrant(s, g, t, x); PlaceGrant(s, g, t, x); }
      else { RolesOtherGrant(s, g, t, x, y); PlaceOtherGrant(s, g, t, x, y); }
    case _ => TaskKeptElse(s, g, t, x, y);
  }

  lemma TaskKeptElse(s: State, g: Ghost, t: nat, x: Choice, y: nat)
    requires Inv(s, g) && TaskIn(s, t) && StepOk(s, t) && TaskIn(s, y) && !Reads(s.local[t].pc)
    requires !s.local[t].pc.Grant?
    ensures var s' := Step(s, t, x); var g' := Recorded(s, g, t, s', x);
            Fits(s', g') && TaskOk(s', g', y)
  {
    hide SumOk, WakeOk, CpuOk, EntryOk, Apart, RolesOk, PlaceOk, HeadOk, Recorded, ReadStep, QueueStep,
      WriteStep, Scene, OwnersOk, Spares;
    SceneHolds(s, g, t);
    SceneHolds(s, g, y);
    var s' := Step(s, t, x);
    var pc := s.local[t].pc;
    if y != t {
      if Queues(pc) { SparesQueue(s, g, t, x, y); } else { SparesWrite(s, g, t, x, y); }
      RolesSpared(s, g, t, s', x, y);
    }
    if pc.LockQueue? || pc.UnlockQueue? {
      if y == t { RolesLock(s, g, t, x); PlaceLock(s, g, t, x); } else { PlaceOtherLock(s, g, t, x, y); }
    } else if Queues(pc) {
      if y == t { RolesEnqueue(s, g, t, x); PlaceEnqueue(s, g, t, x); } else { PlaceOtherEnqueue(s, g, t, x, y); }
    } else if Wakes(pc) {
      if y == t { RolesWakes(s, g, t, x); PlaceWakes(s, g, t, x); } else { PlaceOtherWakes(s, g, t, x, y); }
    } else {
      if y == t { RolesWrite(s, g, t, x); PlaceWrite(s, g, t, x); } else { PlaceOtherWrite(s, g, t, x, y); }
    }
  }

  lemma OwnersKept(s: State, g: Ghost, t: nat, x: Choice)
    requires Inv(s, g) && TaskIn(s, t) && StepOk(s, t)
    ensures var s' := Step(s, t, x); var g' := Recorded(s, g, t, s', x);
            Fits(s', g') && OwnersOk(s', g') && WakeOk(s', g')
  {
    hide SumOk, WakeOk, CpuOk, EntryOk, Apart, RolesOk, PlaceOk, HeadOk, Recorded, ReadStep, QueueStep,
      WriteStep, Scene, OwnersOk, TaskOk;
    SceneHolds(s, g, t);
    var pc := s.local[t].pc;
    if Reads(pc) { WakeRead(s, g, t, x); }
    else if Queues(pc) { WakeQueue(s, g, t, x); }
    else { WakeWrite(s, g, t, x); }
    if pc.Idle? { OwnersIdle(s, g, t, x); }
    else if pc.Reading? { OwnersReading(s, g, t, x); }
    else if pc.ReadInc? { OwnersInc(s, g, t, x); }
    else if pc.ReadCheck? { OwnersCheck(s, g, t, x); }
    else if pc.ReadDec? { OwnersDec(s, g, t, x); }
    else if pc.LockQueue? || pc.UnlockQueue? { OwnersLock(s, g, t, x); }
    else if Queues(pc) { OwnersEnqueue(s, g, t, x); }
    else if Wakes(pc) { OwnersWakes(s, g, t, x); }
    else if pc.Grant? { OwnersGrant(s, g, t, x); }
    else { OwnersWrite(s, g, t, x); }
  }

  lemma CpuKept(s: State, g: Ghost, t: nat, x: Choice, i: nat)
    requires Inv(s, g) && TaskIn(s, t) && StepOk(s, t) && i < |s.count|
    ensures var s' := Step(s, t, x); var g' := Recorded(s, g, t, s', x);
            Fits(s', g') && CpuOk(s', g', i)
  {
    hide SumOk, WakeOk, CpuOk, EntryOk, Apart, RolesOk, PlaceOk, HeadOk, Recorded, ReadStep, QueueStep,
      WriteStep, Scene, OwnersOk, TaskOk;
    SceneHolds(s, g, t);
    var pc := s.local[t].pc;
    if pc.Idle? { CpuIdle(s, g, t, x, i); }
    else if pc.Reading? { CpuReading(s, g, t, x, i); }
    else if pc.ReadInc? { CpuInc(s, g, t, x, i); }
    else if pc.ReadCheck? { CpuCheck(s, g, t, x, i); }
    else if pc.ReadDec? { CpuDec(s, g, t, x, i); }
    else if pc.LockQueue? || pc.UnlockQueue? { CpuLock(s, g, t, x, i); }
    else if Queues(pc) { CpuEnqueue(s, g, t, x, i); }
    else if Wakes(pc) { CpuWakes(s, g, t, x, i); }
    else if pc.Grant? { CpuGrant(s, g, t, x, i); }
    else { CpuWrite(s, g, t, x, i); }
  }

  lemma SumKept(s: State, g: Ghost, t: nat, x: Choice)
    requires Inv(s, g) && TaskIn(s, t) && StepOk(s, t) && Small(s)
    ensures var s' := Step(s, t, x); var g' := Recorded(s, g, t, s', x);
            Fits(s', g') && SumOk(s', g')
  {
    hide SumOk, WakeOk, CpuOk, EntryOk, Apart, RolesOk, PlaceOk, HeadOk, Recorded, ReadStep, QueueStep,
      WriteStep, Scene, OwnersOk, TaskOk;
    SceneHolds(s, g, t);
    var pc := s.local[t].pc;
    if pc.Idle? { SumIdle(s, g, t, x); }
    else if pc.Reading? { SumReading(s, g, t, x); }
    else if pc.ReadCheck? { SumCheck(s, g, t, x); }
    else if Reads(pc) { SumTry(s, g, t, x); }
    else if Queues(pc) { SumQueue(s, g, t, x); }
    else if pc.Summing? { assert pc.cpu < |s.count| ==> CpuOk(s, g, pc.cpu); SumSums(s, g, t, x); }
    else if pc.Grant? { SumGrant(s, g, t, x); }
    else { SumWrite(s, g, t, x); }
  }

  lemma ListKept(s: State, g: Ghost, t: nat, x: Choice, i: nat, j: nat)
    requires Inv(s, g) && TaskIn(s, t) && StepOk(s, t)
    ensures var s' := Step(s, t, x); Sized(s') && EntryIn(s', i) && ApartIn(s', i, j)
  {
    hide SumOk, WakeOk, CpuOk, EntryOk, Apart, RolesOk, PlaceOk, HeadOk, Recorded, ReadStep, QueueStep,
      WriteStep, Scene, OwnersOk, TaskOk;
    SceneHolds(s, g, t);
    assert EntryIn(s, i) && EntryIn(s, j) && EntryIn(s, i + 1);
    assert ApartIn(s, i, j) && ApartIn(s, i + 1, j + 1) && ApartIn(s, 0, i + 1);
    var pc := s.local[t].pc;
    if Reads(pc) { EntryRead(s, g, t, x, i); ApartRead(s, g, t, x, i, j); }
    else if Queues(pc) { EntryQueue(s, g, t, x, i); ApartQueue(s, g, t, x, i, j); }
    else { EntryWrite(s, g, t, x, i); ApartWrite(s, g, t, x, i, j); }
  }

  lemma StepKeepsInv(s: State, g: Ghost, t: nat, x: Choice)
    requires Inv(s, g) && Small(s) && TaskIn(s, t) && StepOk(s, t)
    ensures var s' := Step(s, t, x);
            Small(s') && Sized(s') && |s'.local| == |s.local| && Inv(s', Recorded(s, g, t, s', x))
  {
    hide SumOk, WakeOk, CpuOk, EntryOk, Apart, TaskOk, Recorded, Step, OwnersOk;
    OwnersKept(s, g, t, x);
    SumKept(s, g, t, x);
    var s' := Step(s, t, x);
    var g' := Recorded(s, g, t, s', x);
    forall y: nat ensures TaskOk(s', g', y) {
      if TaskIn(s, y) { TaskKept(s, g, t, x, y); } else { Nobody(s', g', y); }
    }
    forall i: nat | i < |s'.count| ensures CpuOk(s', g', i) { CpuKept(s, g, t, x, i); }
    forall i: nat | i < |s'.waiters| ensures EntryOk(s', i) {
      ListKept(s, g, t, x, i, i);
      assert EntryIn(s', i);
    }
    forall i: nat, j: nat | i < |s'.waiters| && j < |s'.waiters| ensures Apart(s', i, j) {
      ListKept(s, g, t, x, i, j);
      assert ApartIn(s', i, j);
    }
  }

  lemma Nobody(s: State, g: Ghost, t: nat)
    requires Fits(s, g) && !TaskIn(s, t)
    ensures TaskOk(s, g, t)
  {
  }

  // ---------------------------------------------------------------------------
  // Runs
  // ---------------------------------------------------------------------------

  ghost predicate Init(s: State) {
    && Sized(s) && !s.block && s.syncing == {} && s.waiters == [] && s.queueLock == None
    && (forall i :: 0 <= i < |s.count| ==> s.count[i] == 0 && s.pinned[i] == None)
    && (forall t :: 0 <= t < |s.local| ==> s.local[t].pc == Idle && !s.granted[t])
  }

  /** Some task performs one access. */
  ghost predicate NextBy(s: State, s': State, t: nat, x: Choice) {
    Sized(s) && TaskIn(s, t) && StepOk(s, t) && s' == Step(s, t, x)
  }

  ghost predicate Next(s: State, s': State) { exists t: nat, x :: NextBy(s, s', t, x) }

  /** An interleaving of any length. A 32-bit sum can count the tasks and the CPUs. */
  ghost predicate Run(run: seq<State>) {
    && |run| > 0 && Init(run[0]) && Small(run[0])
    && (forall i :: 0 <= i < |run| - 1 ==> Next(run[i], run[i + 1]))
  }

  lemma {:induction false} SumZero(n: nat)
    ensures Sum(seq(n, _ => 0)) == 0
  {
    if n > 0 {
      assert seq(n, _ => 0)[1..] == seq(n - 1, _ => 0);
      SumZero(n - 1);
    }
  }

  lemma InitInv(s: State) returns (g: Ghost)
    requires Init(s)
    ensures Inv(s, g)
  {
    g := Ghost({}, seq(|s.count|, _ => 0), 0, None, {});
    SumZero(|s.count|);
    WrapSmall(0);
    forall t: nat ensures TaskOk(s, g, t) {}
    forall i: nat | i < |s.count| ensures CpuOk(s, g, i) {}
  }

  lemma {:induction false} RunKeepsInv(run: seq<State>, i: nat) returns (g: Ghost)
    requires Run(run) && i < |run|
    ensures Inv(run[i], g) && Small(run[i])
  {
    hide Inv, Init, Small, Step;
    if i == 0 {
      g := InitInv(run[0]);
    } else {
      var g0 := RunKeepsInv(run, i - 1);
      assert Next(run[i - 1], run[i - 1 + 1]);
      var t: nat, x :| NextBy(run[i - 1], run[i], t, x);
      StepKeepsInv(run[i - 1], g0, t, x);
      InvFits(run[i - 1], g0);
      g := Recorded(run[i - 1], g0, t, run[i], x);
    }
  }

  lemma InvFits(s: State, g: Ghost)
    requires Inv(s, g)
    ensures Fits(s, g)
  {
  }

  /** A writer that has seen the counters add up to zero has the semaphore alone: no task is inside a
      read section or has been granted one, and no other writer is past its trylock. */
  lemma WriterIsAlone(run: seq<State>, i: nat, w: nat, t: nat)
    requires Run(run) && i < |run| && w < |run[i].local| && t < |run[i].local|
    requires run[i].local[w].pc == Writing
    ensures Sized(run[i]) && !HasRead(run[i], t) && (HasBlock(run[i], t) ==> t == w)
  {
    hide Sum, Wrap, WakeOk, PlaceOk, CpuOk, EntryOk, Apart, Run;
    var g := RunKeepsInv(run, i);
    assert TaskOk(run[i], g, w) && TaskOk(run[i], g, t);
  }

  /** At most one writer gets past its trylock at a time. */
  lemma OneWriter(run: seq<State>, i: nat, a: nat, b: nat)
    requires Run(run) && i < |run| && a < |run[i].local| && b < |run[i].local| && Sized(run[i])
    requires HasBlock(run[i], a) && HasBlock(run[i], b)
    ensures a == b
  {
    hide SumOk, WakeOk, PlaceOk, CpuOk, EntryOk, Apart, Run;
    var g := RunKeepsInv(run, i);
    assert TaskOk(run[i], g, a) && TaskOk(run[i], g, b);
  }

  lemma StaysOut(s: State, g: Ghost, t: nat, x: Choice)
    requires Near(s, g, t) && s.block && !HasRead(s, t) && StepOk(s, t)
    requires TaskIn(s, g.writer) ==> g.writer in s.syncing
    ensures !HasRead(Step(s, t, x), t)
  {
    hide Wrap;
  }

  /** Once a writer has set `block`, nobody becomes a reader until it clears it in percpu_up_write;
      only a read trylock that had succeeded before may still be passed to the waiter it was for. */
  lemma NoneEnters(run: seq<State>, i: nat, s': State, t: nat, x: Choice, y: nat)
    requires Run(run) && i < |run| && NextBy(run[i], s', t, x) && y < |run[i].local|
    requires run[i].block && !HasRead(run[i], y)
    ensures Sized(s') && y < |s'.local|
    ensures HasRead(s', y) ==> run[i].local[t].pc == Grant(true)
  {
    hide RolesOk, PlaceOk, SumOk, WakeOk, CpuOk, EntryOk, Apart, Run, Wrap, ReadStep, WriteStep, QueueStep,
      Inv, Scene, HeadOk, OwnersOk, Syncs;
    var s := run[i];
    var g := RunKeepsInv(run, i);
    SceneHolds(s, g, t);
    if y == t {
      StaysOut(s, g, t, x);
    } else if s.local[t].pc.Grant? {
      GrantReads(s, g, t, y);
    } else if Reads(s.local[t].pc) {
      SparesRead(s, g, t, x, y);
    } else if Queues(s.local[t].pc) {
      SparesQueue(s, g, t, x, y);
    } else {
      SparesWrite(s, g, t, x, y);
    }
  }

  lemma GrantReads(s: State, g: Ghost, t: nat, y: nat)
    requires Near(s, g, t) && HeadOk(s, g) && StepOk(s, t) && s.local[t].pc.Grant? && TaskIn(s, y)
    requires !HasRead(s, y)
    ensures HasRead(WriteStep(s, t), y) ==> s.local[t].pc.reader
  {
  }

  /** The sum a writer takes for zero is zero, although it reads the counters one at a time, readers
      leave on other CPUs than they came, and trylocks pass by. */
  lemma ZeroMeansNoReader(run: seq<State>, i: nat, w: nat)
    requires Run(run) && i < |run| && w < |run[i].local|
    requires run[i].local[w].pc == Summing(|run[i].count|, 0)
    ensures Sized(run[i]) && forall t :: 0 <= t < |run[i].local| ==> !HasRead(run[i], t)
  {
    hide Sum, Wrap, WakeOk, PlaceOk, CpuOk, EntryOk, Apart, Run;
    var s := run[i];
    var g := RunKeepsInv(run, i);
    assert TaskOk(s, g, w);
    SumNone(g.net, |s.count|);
    WrapSmall(g.sum);
    forall t: nat | t < |s.local| ensures !HasRead(s, t) { assert TaskOk(s, g, t); }
  }

  /** A reader or writer on the wait list is not forgotten: somebody has the semaphore for writing,
      or is on the way to look at the list. */
  lemma NoLostWakeup(run: seq<State>, i: nat, t: nat) returns (w: nat)
    requires Run(run) && i < |run| && t < |run[i].local| && Sized(run[i])
    requires run[i].local[t].pc.Waiting? && !run[i].granted[t]
    ensures Entry(t, run[i].local[t].pc.reader) in run[i].waiters
    ensures w < |run[i].local| && (HasBlock(run[i], w) || WillWake(run[i].local[w].pc))
  {
    hide SumOk, CpuOk, Apart, Run;
    var s := run[i];
    var g := RunKeepsInv(run, i);
    assert TaskOk(s, g, t);
    if s.block { w := g.writer; } else { w :| w in g.wakers; }
    assert TaskOk(s, g, w);
  }
}
