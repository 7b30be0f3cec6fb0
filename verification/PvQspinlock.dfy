/** The paravirtual queued spinlock: tests/locking/qspinlock_paravirt.h on top of the MCS queue of
    tests/locking/qspinlock.c. Waiters halt their vCPU; who is to be kicked is found in a hash table
    that all locks share, under open addressing. One transition is one access to shared memory.

    A context is one acquisition after another of one lock, each from the call of the lock function
    to the end of the unlock and with one queue node. There are any number of locks, and of contexts
    for each. A lock is seen through a View: its own word, nodes and contexts, and the whole table.
 */
module PvQspinlock {

  const None := -1

  /** Values of the locked byte: free, _Q_LOCKED_VAL, _Q_SLOW_VAL. */
  datatype Locked = Free | Taken | Slow

  /** The lock word: tail (a context, or None), pending bit and locked byte. */
  datatype Word = Word(tail: int, pending: bool, locked: Locked)

  const Zero := Word(None, false, Free)

  datatype Vcpu = Running | Halted | Hashed

  datatype Node = Node(next: int, locked: bool, state: Vcpu)

  /** A pv_hash_entry. */
  datatype Slot = Slot(lock: int, node: int)

  /** The local `lp` of pv_wait_head_or_lock: NULL, the 1 that pv_kick_node's hashing leaves, or
      the entry made by the queue head itself. */
  datatype Entered = NotYet | Kicked | Own

  // Program points; each names the access performed next.

  /** Waiting to become queue head. */
  datatype WaitPc = Spin | Halt | Check | Sleep | Unhalt

  /** Queue head, without the lock. */
  datatype HeadPc = MarkRunning | SetPending | TryLock | ClearPending | Scan | PutNode | Exchange | MarkHashed | Wait

  /** Queue head with the lock. */
  datatype ClaimPc = MarkTaken | Unenter | ReadWord | ClaimAll | SetLocked | AwaitNext | HandOver

  /** Holder that has left the queue and works for its successor. */
  datatype KickPc = KickState | MarkSlow | KickScan | KickPut

  /** Holder in and after its critical section. */
  datatype HoldPc = Release | UnScan | UnNode | UnClear | FreeByte

  datatype Pc =
    | Idle
    | Fast | StealRead(queued: bool) | StealCas(queued: bool) | SwapTail
    | Link
    | Waiting(wait: WaitPc)
    | LoadNext | ReadState
    | Heading(head: HeadPc)
    | Claiming(claim: ClaimPc)
    | Kicking(kick: KickPc)
    | Holding(hold: HoldPc)

  /** Locals: `prev`, `next`, `lp`, the hash offset, the slot in use and the word read. */
  datatype Local = Local(pc: Pc, prev: int, next: int, lp: Entered, off: nat, slot: int, val: Word)

  /** One lock: `base` is where its probe sequence starts, its hash rounded to a cache line. */
  datatype View = View(lock: nat, base: nat, word: Word, slots: seq<Slot>, node: seq<Node>, local: seq<Local>)

  /** What the environment decides: whether a queue node is left, and whether to go on with what is
      being tried. */
  datatype Choice = Choice(node: bool, go: bool)

  predicate CtxIn(v: View, c: int) { 0 <= c < |v.local| }

  predicate Shaped(v: View) { |v.node| == |v.local| && v.base < |v.slots| }

  predicate SameSizes(v: View, v': View) {
    && |v'.node| == |v.node| && |v'.local| == |v.local| && |v'.slots| == |v.slots|
    && v'.lock == v.lock && v'.base == v.base
  }

  /** Pointers about to be followed are pointers. */
  predicate CtxOk(v: View, c: int)
    requires Shaped(v) && CtxIn(v, c)
  {
    var me := v.local[c];
    && (me.pc.Link? ==> CtxIn(v, me.prev))
    && (HasNext(me.pc) ==> CtxIn(v, me.next))
    && (UsesSlot(me.pc) ==> 0 <= me.slot < |v.slots|)
  }

  predicate HasNext(pc: Pc) { pc == Claiming(HandOver) || pc.Kicking? }

  /** Program points that access the slot they have found or taken. */
  predicate UsesSlot(pc: Pc) {
    match pc
    case Heading(h) => h.PutNode? || h.Exchange?
    case Claiming(c) => c.MarkTaken? || c.Unenter?
    case Kicking(k) => k.KickPut?
    case Holding(h) => h.UnNode? || h.UnClear?
    case _ => false
  }

  /** The `k`-th slot of the probe sequence that starts at `base`: the table is circular. */
  function Probe(base: nat, size: nat, k: nat): (i: int)
    requires base < size && k < size
    ensures 0 <= i < size
  {
    if base + k < size then base + k else base + k - size
  }

  // ---------------------------------------------------------------------------
  // Transitions
  // ---------------------------------------------------------------------------

  function SetLocal(v: View, c: nat, me: Local): View
    requires c < |v.local|
  {
    v.(local := v.local[c := me])
  }

  function Goto(v: View, c: nat, pc: Pc): View
    requires c < |v.local|
  {
    SetLocal(v, c, v.local[c].(pc := pc))
  }

  function SetNode(v: View, c: int, nd: Node): View
    requires 0 <= c < |v.node|
  {
    v.(node := v.node[c := nd])
  }

  function SetState(v: View, c: int, st: Vcpu): View
    requires 0 <= c < |v.node|
  {
    SetNode(v, c, v.node[c].(state := st))
  }

  function SetByte(v: View, b: Locked): View { v.(word := v.word.(locked := b)) }

  function SetSlot(v: View, i: int, e: Slot): View
    requires 0 <= i < |v.slots|
  {
    v.(slots := v.slots[i := e])
  }

  /** The way in: the fast path, pv_hybrid_queued_unfair_trylock, and the swap of the tail. */
  function EnterStep(v: View, c: nat, x: Choice): (v': View)
    requires Shaped(v) && c < |v.local|
    ensures SameSizes(v, v')
  {
    var me := v.local[c];
    match me.pc
    case Idle => SetLocal(v, c, Local(Fast, None, None, NotYet, 0, None, Zero))
    case Fast =>
      if v.word == Zero then Goto(SetByte(v, Taken), c, Holding(Release))
      else Goto(SetNode(v, c, Node(None, false, Running)), c, StealRead(x.node))
    case StealRead(queued) => SetLocal(v, c, me.(pc := StealCas(queued), val := v.word))
    case StealCas(queued) =>
      if !me.val.pending && me.val.locked.Free? && v.word.locked.Free?
      then Goto(SetByte(v, Taken), c, Holding(Release))
      else Goto(v, c, if queued && (me.val.tail == None || me.val.pending) then SwapTail else StealRead(queued))
    case SwapTail =>
      SetLocal(v, c, me.(pc := if v.word.tail == None then ReadState else Link, prev := v.word.tail))
        .(word := v.word.(tail := c))
    case _ => v
  }

  /** Linking to the predecessor, and pv_wait_node. */
  function WaitStep(v: View, c: nat, x: Choice): (v': View)
    requires Shaped(v) && c < |v.local| && CtxOk(v, c)
    ensures SameSizes(v, v')
  {
    var me := v.local[c];
    match me.pc
    case Link => Goto(SetNode(v, me.prev, v.node[me.prev].(next := c)), c, Waiting(Spin))
    case Waiting(Spin) =>
      if v.node[c].locked then Goto(v, c, LoadNext) else if x.go then v else Goto(v, c, Waiting(Halt))
    case Waiting(Halt) => Goto(SetState(v, c, Halted), c, Waiting(Check))
    case Waiting(Check) => Goto(v, c, Waiting(if v.node[c].locked then Unhalt else Sleep))
    case Waiting(Sleep) => if x.go then Goto(v, c, Waiting(Unhalt)) else v
    case Waiting(Unhalt) =>
      Goto(if v.node[c].state.Halted? then SetState(v, c, Running) else v, c, Waiting(Spin))
    case LoadNext => SetLocal(v, c, me.(pc := ReadState, next := v.node[c].next))
    case _ => v
  }

  /** pv_wait_head_or_lock, up to getting the lock. */
  function HeadStep(v: View, c: nat, x: Choice): (v': View)
    requires Shaped(v) && c < |v.local| && CtxOk(v, c)
    ensures SameSizes(v, v')
  {
    var me := v.local[c];
    match me.pc
    case ReadState =>
      SetLocal(v, c, me.(pc := Heading(MarkRunning), lp := if v.node[c].state.Hashed? then Kicked else NotYet))
    case Heading(MarkRunning) => Goto(SetState(v, c, Running), c, Heading(SetPending))
    case Heading(SetPending) => Goto(v.(word := v.word.(pending := true)), c, Heading(TryLock))
    case Heading(TryLock) =>
      if x.go && v.word.pending && v.word.locked.Free?
      then Goto(v.(word := v.word.(pending := false, locked := Taken)), c, Claiming(ReadWord))
      else Goto(v, c, if x.go then Heading(TryLock) else Heading(ClearPending))
    case Heading(ClearPending) =>
      SetLocal(v.(word := v.word.(pending := false)), c,
               me.(pc := if me.lp.NotYet? then Heading(Scan) else Heading(MarkHashed), off := 0))
    case Heading(Scan) => Insert(v, c, Heading(PutNode))
    case Heading(PutNode) =>
      SetLocal(SetSlot(v, me.slot, v.slots[me.slot].(node := c)), c, me.(pc := Heading(Exchange), lp := Own))
    case Heading(Exchange) =>
      Goto(SetByte(v, Slow), c, if v.word.locked.Free? then Claiming(MarkTaken) else Heading(MarkHashed))
    case Heading(MarkHashed) => Goto(SetState(v, c, Hashed), c, Heading(Wait))
    case Heading(Wait) => if x.go then Goto(v, c, Heading(MarkRunning)) else v
    case _ => v
  }

  /** One probe of pv_hash: take the slot if it is free. Past the last slot is the BUG(), where the
      context stays. */
  function Insert(v: View, c: nat, taken: Pc): (v': View)
    requires Shaped(v) && c < |v.local|
    ensures SameSizes(v, v')
  {
    var me := v.local[c];
    if me.off >= |v.slots| then v
    else
      var i := Probe(v.base, |v.slots|, me.off);
      if v.slots[i].lock == None
      then SetLocal(SetSlot(v, i, v.slots[i].(lock := v.lock)), c, me.(pc := taken, slot := i))
      else SetLocal(v, c, me.(off := me.off + 1))
  }

  /** From getting the lock as queue head to handing the queue on. */
  function ClaimStep(v: View, c: nat): (v': View)
    requires Shaped(v) && c < |v.local| && CtxOk(v, c)
    ensures SameSizes(v, v')
  {
    var me := v.local[c];
    match me.pc
    case Claiming(MarkTaken) => Goto(SetByte(v, Taken), c, Claiming(Unenter))
    case Claiming(Unenter) => Goto(SetSlot(v, me.slot, v.slots[me.slot].(lock := None)), c, Claiming(ReadWord))
    case Claiming(ReadWord) =>
      SetLocal(v, c, me.(pc := if v.word.tail == c then Claiming(ClaimAll) else Claiming(SetLocked), val := v.word))
    case Claiming(ClaimAll) =>
      if v.word == me.val then Goto(v.(word := Zero.(locked := Taken)), c, Holding(Release))
      else Goto(v, c, Claiming(SetLocked))
    case Claiming(SetLocked) =>
      Goto(SetByte(v, Taken), c, if me.next == None then Claiming(AwaitNext) else Claiming(HandOver))
    case Claiming(AwaitNext) =>
      if v.node[c].next == None then v else SetLocal(v, c, me.(pc := Claiming(HandOver), next := v.node[c].next))
    case Claiming(HandOver) => Goto(SetNode(v, me.next, v.node[me.next].(locked := true)), c, Kicking(KickState))
    case _ => v
  }

  /** pv_kick_node. */
  function KickStep(v: View, c: nat): (v': View)
    requires Shaped(v) && c < |v.local| && CtxOk(v, c)
    ensures SameSizes(v, v')
  {
    var me := v.local[c];
    match me.pc
    case Kicking(KickState) =>
      if v.node[me.next].state.Halted? then Goto(SetState(v, me.next, Hashed), c, Kicking(MarkSlow))
      else Goto(v, c, Holding(Release))
    case Kicking(MarkSlow) => SetLocal(SetByte(v, Slow), c, me.(pc := Kicking(KickScan), off := 0))
    case Kicking(KickScan) => Insert(v, c, Kicking(KickPut))
    case Kicking(KickPut) => Goto(SetSlot(v, me.slot, v.slots[me.slot].(node := me.next)), c, Holding(Release))
    case _ => v
  }

  /** __pv_queued_spin_unlock, its slow path and pv_unhash. */
  function UnlockStep(v: View, c: nat): (v': View)
    requires Shaped(v) && c < |v.local| && CtxOk(v, c)
    ensures SameSizes(v, v')
  {
    var me := v.local[c];
    match me.pc
    case Holding(Release) =>
      if v.word.locked.Taken? then Goto(SetByte(v, Free), c, Idle)
      else if v.word.locked.Slow? then SetLocal(v, c, me.(pc := Holding(UnScan), off := 0))
      else v
    case Holding(UnScan) =>
      if me.off >= |v.slots| then v
      else
        var i := Probe(v.base, |v.slots|, me.off);
        if v.slots[i].lock == v.lock then SetLocal(v, c, me.(pc := Holding(UnNode), slot := i))
        else SetLocal(v, c, me.(off := me.off + 1))
    case Holding(UnNode) => SetLocal(v, c, me.(pc := Holding(UnClear), next := v.slots[me.slot].node))
    case Holding(UnClear) => Goto(SetSlot(v, me.slot, v.slots[me.slot].(lock := None)), c, Holding(FreeByte))
    case Holding(FreeByte) => Goto(SetByte(v, Free), c, Idle)
    case _ => v
  }

  function Step(v: View, c: nat, x: Choice): (v': View)
    requires Shaped(v) && c < |v.local| && CtxOk(v, c)
    ensures SameSizes(v, v')
  {
    match v.local[c].pc
    case Idle => EnterStep(v, c, x)
    case Fast => EnterStep(v, c, x)
    case StealRead(_) => EnterStep(v, c, x)
    case StealCas(_) => EnterStep(v, c, x)
    case SwapTail => EnterStep(v, c, x)
    case Link => WaitStep(v, c, x)
    case Waiting(_) => WaitStep(v, c, x)
    case LoadNext => WaitStep(v, c, x)
    case ReadState => HeadStep(v, c, x)
    case Heading(_) => HeadStep(v, c, x)
    case Claiming(_) => ClaimStep(v, c)
    case Kicking(_) => KickStep(v, c)
    case Holding(_) => UnlockStep(v, c)
  }

  // ---------------------------------------------------------------------------
  // The history behind a state
  // ---------------------------------------------------------------------------

  /** What the code does not store: who ever joined the queue, in order, and how many of them have
      left it; each context's place in that order; the holder; the slot of the lock's entry. */
  datatype Ghost = Ghost(line: seq<int>, gone: nat, place: seq<int>, holder: int, entry: int)

  /** Who stands at place `i`, if anybody has come to it. */
  function At(g: Ghost, i: int): int { if 0 <= i < |g.line| then g.line[i] else None }

  /** The queue head. */
  function First(g: Ghost): int { At(g, g.gone) }

  function Last(g: Ghost): int { if g.gone < |g.line| then At(g, |g.line| - 1) else None }

  /** The parts of a pass that EnterStep, WaitStep and HeadStep perform. */
  predicate Enters(pc: Pc) { pc.Idle? || pc.Fast? || Tries(pc) }

  predicate Waits(pc: Pc) { pc.Link? || pc.Waiting? || pc.LoadNext? }

  predicate Heads(pc: Pc) { pc.ReadState? || pc.Heading? }

  predicate InQueue(pc: Pc) { Waits(pc) || Heads(pc) || pc.Claiming? }

  /** With a queue node, not queued yet. */
  predicate Tries(pc: Pc) { pc.StealRead? || pc.StealCas? || pc.SwapTail? }

  predicate Owns(pc: Pc) { pc.Claiming? || pc.Kicking? || pc.Holding? }

  predicate Scans(pc: Pc) { pc == Heading(Scan) || pc == Kicking(KickScan) }

  predicate Clears(pc: Pc) { pc == Claiming(Unenter) || pc == Holding(UnClear) }

  predicate Fits(v: View, g: Ghost) { Shaped(v) && |g.place| == |v.local| }

  /** How a step of `c` from `v` to `v'` changes the history. */
  function Recorded(v: View, g: Ghost, c: nat, v': View): (g': Ghost)
    requires Fits(v, g) && c < |v.local| == |v'.local|
    ensures |g'.place| == |g.place|
  {
    var me, me' := v.local[c], v'.local[c];
    var joins, leaves := me.pc.SwapTail?, InQueue(me.pc) && !InQueue(me'.pc);
    Ghost(if joins then g.line + [c] else g.line,
          if leaves then g.gone + 1 else g.gone,
          if joins then g.place[c := |g.line|] else g.place,
          if Owns(me.pc) == Owns(me'.pc) then g.holder else if Owns(me'.pc) then c else None,
          if Scans(me.pc) && me'.pc != me.pc then me'.slot else if Clears(me.pc) then None else g.entry)
  }

  // ---------------------------------------------------------------------------
  // The queue and the holder
  // ---------------------------------------------------------------------------

  /** The queue as context `c` sees it: its place, whether it is the head, and its links. */
  predicate Queued(v: View, g: Ghost, c: int)
    requires Fits(v, g) && CtxIn(v, c)
  {
    var me, nd := v.local[c], v.node[c];
    && CtxOk(v, c)
    && (if !InQueue(me.pc) then
          && (me.pc.Fast? || Tries(me.pc) ==> me.next == None)
          && (Tries(me.pc) ==> nd.next == None && !nd.locked)
        else
          var i := g.place[c];
          var n := At(g, i + 1);
          && g.gone <= i && At(g, i) == c
          && nd.next == (if CtxIn(v, n) && !v.local[n].pc.Link? then n else None)
          && (if i > g.gone then (me.pc.Link? || me.pc.Waiting?) && !nd.locked
              else !me.pc.Link? && (me.pc.Waiting? ==> nd.locked))
          && (me.pc.Link? ==> me.prev == At(g, i - 1))
          && (me.next != None ==> me.next == nd.next)
          && (me.pc == Claiming(HandOver) ==> me.next == n)
          && (me.pc == Claiming(ClaimAll) ==> me.val.tail == c))
  }

  /** Who stands at place `i`, and has not left, is there. */
  predicate Stands(v: View, g: Ghost, i: int)
    requires Fits(v, g)
  {
    g.gone <= i < |g.line| ==> CtxIn(v, g.line[i]) && InQueue(v.local[g.line[i]].pc) && g.place[g.line[i]] == i
  }

  predicate TailOk(v: View, g: Ghost) { g.gone <= |g.line| && v.word.tail == Last(g) }

  predicate Held(v: View, g: Ghost, c: int)
    requires CtxIn(v, c)
  {
    Owns(v.local[c].pc) <==> g.holder == c
  }

  predicate ByteOk(v: View, g: Ghost) {
    && (g.holder == None <==> v.word.locked.Free?) && (g.holder == None || CtxIn(v, g.holder))
  }

  /** What a step of `c` needs to know of the queue. */
  ghost predicate Around(v: View, g: Ghost, c: int)
    requires Fits(v, g)
  {
    && CtxIn(v, c) && Queued(v, g, c) && TailOk(v, g)
    && Stands(v, g, g.gone) && Stands(v, g, |g.line| - 1)
    && Stands(v, g, g.place[c] - 1) && Stands(v, g, g.place[c] + 1)
  }

  /** A context and the one behind it. */
  ghost predicate Linked(v: View, g: Ghost, y: int)
    requires Fits(v, g)
  {
    CtxIn(v, y) && Queued(v, g, y) && Stands(v, g, g.place[y] + 1)
  }

  predicate SameQueue(g: Ghost, g': Ghost) { g'.line == g.line && g'.gone == g.gone && g'.place == g.place }

  /** Nothing that the queue invariants look at has changed for `y`. */
  predicate SamePlace(v: View, v': View, y: int)
    requires Shaped(v) && Shaped(v') && CtxIn(v, y) && CtxIn(v', y)
  {
    var me, me', nd, nd' := v.local[y], v'.local[y], v.node[y], v'.node[y];
    && CtxOk(v', y) && nd'.next == nd.next && nd'.locked == nd.locked
    && InQueue(me'.pc) == InQueue(me.pc) && me'.pc.Link? == me.pc.Link? && me'.pc.Waiting? == me.pc.Waiting?
    && (InQueue(me.pc) ==> me'.prev == me.prev && me'.next == me.next)
    && (me'.pc.Fast? || Tries(me'.pc) || Passes(me'.pc) ==> me' == me)
  }

  predicate Stays(v: View, v': View, y: int)
    requires CtxIn(v, y) && CtxIn(v', y)
  {
    v'.local[y].pc.Link? == v.local[y].pc.Link? && (InQueue(v.local[y].pc) ==> InQueue(v'.local[y].pc))
  }

  /** Program points whose step changes the queue. */
  predicate Moves(pc: Pc) { pc.SwapTail? || pc.Link? || Passes(pc) }

  predicate Hashing(pc: Pc) {
    pc.Heading? && (pc.head.Scan? || pc.head.PutNode? || pc.head.Exchange? || pc.head.MarkHashed? || pc.head.Wait?)
  }

  predicate Passes(pc: Pc) { pc == Claiming(ClaimAll) || pc == Claiming(HandOver) }

  lemma QueuedSame(v: View, v': View, g: Ghost, g': Ghost, y: int)
    requires Fits(v, g) && Fits(v', g') && SameSizes(v, v') && SameQueue(g, g')
    requires Linked(v, g, y) && SamePlace(v, v', y)
    requires var n := At(g, g.place[y] + 1); CtxIn(v, n) ==> Stays(v, v', n)
    ensures Queued(v', g', y)
  {
  }

  // A step that leaves the queue alone, as the other contexts see it.

  lemma QuietEnter(v: View, c: nat, x: Choice, y: int)
    requires Shaped(v) && CtxIn(v, c) && CtxOk(v, c) && Enters(v.local[c].pc) && !Moves(v.local[c].pc)
    requires CtxIn(v, y) && CtxOk(v, y) && y != c
    ensures var v' := EnterStep(v, c, x); Shaped(v') && SamePlace(v, v', y)
  {
  }

  lemma QuietWait(v: View, c: nat, x: Choice, y: int)
    requires Shaped(v) && CtxIn(v, c) && CtxOk(v, c) && Waits(v.local[c].pc) && !Moves(v.local[c].pc)
    requires CtxIn(v, y) && CtxOk(v, y) && y != c
    ensures var v' := WaitStep(v, c, x); Shaped(v') && SamePlace(v, v', y)
  {
  }

  lemma QuietHead(v: View, c: nat, x: Choice, y: int)
    requires Shaped(v) && CtxIn(v, c) && CtxOk(v, c) && Heads(v.local[c].pc)
    requires CtxIn(v, y) && CtxOk(v, y) && y != c
    ensures var v' := HeadStep(v, c, x); Shaped(v') && SamePlace(v, v', y)
  {
  }

  lemma QuietClaim(v: View, c: nat, y: int)
    requires Shaped(v) && CtxIn(v, c) && CtxOk(v, c) && v.local[c].pc.Claiming?
    requires !Moves(v.local[c].pc)
    requires CtxIn(v, y) && CtxOk(v, y) && y != c
    ensures var v' := ClaimStep(v, c); Shaped(v') && SamePlace(v, v', y)
  {
  }

  lemma QuietKick(v: View, c: nat, y: int)
    requires Shaped(v) && CtxIn(v, c) && CtxOk(v, c) && v.local[c].pc.Kicking?
    requires CtxIn(v, y) && CtxOk(v, y) && y != c
    ensures var v' := KickStep(v, c); Shaped(v') && SamePlace(v, v', y)
  {
  }

  lemma QuietUnlock(v: View, c: nat, y: int)
    requires Shaped(v) && CtxIn(v, c) && CtxOk(v, c) && v.local[c].pc.Holding?
    requires CtxIn(v, y) && CtxOk(v, y) && y != c
    ensures var v' := UnlockStep(v, c); Shaped(v') && SamePlace(v, v', y)
  {
  }

  // The same, as the stepping context sees it.

  lemma OwnEnter(v: View, g: Ghost, c: nat, x: Choice)
    requires Fits(v, g) && Around(v, g, c) && Enters(v.local[c].pc) && !Moves(v.local[c].pc)
    ensures var v' := EnterStep(v, c, x); var g' := Recorded(v, g, c, v');
            Fits(v', g') && Queued(v', g', c) && Stays(v, v', c) && SameQueue(g, g')
  {
  }

  lemma OwnSpin(v: View, g: Ghost, c: nat, x: Choice)
    requires Fits(v, g) && Around(v, g, c) && Waits(v.local[c].pc) && v.local[c].pc == Waiting(Spin)
    ensures var v' := WaitStep(v, c, x); var g' := Recorded(v, g, c, v');
            Fits(v', g') && Queued(v', g', c) && Stays(v, v', c) && SameQueue(g, g')
  {
  }

  lemma OwnLoad(v: View, g: Ghost, c: nat, x: Choice)
    requires Fits(v, g) && Around(v, g, c) && Waits(v.local[c].pc) && v.local[c].pc.LoadNext?
    ensures var v' := WaitStep(v, c, x); var g' := Recorded(v, g, c, v');
            Fits(v', g') && Queued(v', g', c) && Stays(v, v', c) && SameQueue(g, g')
  {
  }

  lemma OwnHalt(v: View, g: Ghost, c: nat, x: Choice)
    requires Fits(v, g) && Around(v, g, c) && Waits(v.local[c].pc)
    requires v.local[c].pc == Waiting(Halt) || v.local[c].pc == Waiting(Check) || v.local[c].pc == Waiting(Sleep)
    ensures var v' := WaitStep(v, c, x); var g' := Recorded(v, g, c, v');
            Fits(v', g') && Queued(v', g', c) && Stays(v, v', c) && SameQueue(g, g')
  {
  }

  lemma OwnUnhalt(v: View, g: Ghost, c: nat, x: Choice)
    requires Fits(v, g) && Around(v, g, c) && Waits(v.local[c].pc) && v.local[c].pc == Waiting(Unhalt)
    ensures var v' := WaitStep(v, c, x); var g' := Recorded(v, g, c, v');
            Fits(v', g') && Queued(v', g', c) && Stays(v, v', c) && SameQueue(g, g')
  {
  }

  lemma OwnHead(v: View, g: Ghost, c: nat, x: Choice)
    requires Fits(v, g) && Around(v, g, c) && Heads(v.local[c].pc) && !Hashing(v.local[c].pc)
    requires v.local[c].pc != Heading(TryLock)
    ensures var v' := HeadStep(v, c, x); var g' := Recorded(v, g, c, v');
            Fits(v', g') && Queued(v', g', c) && Stays(v, v', c) && SameQueue(g, g')
  {
  }

  lemma OwnTry(v: View, g: Ghost, c: nat, x: Choice)
    requires Fits(v, g) && Around(v, g, c) && Heads(v.local[c].pc)
    requires v.local[c].pc == Heading(TryLock)
    ensures var v' := HeadStep(v, c, x); var g' := Recorded(v, g, c, v');
            Fits(v', g') && Queued(v', g', c) && Stays(v, v', c) && SameQueue(g, g')
  {
  }

  lemma OwnScan(v: View, g: Ghost, c: nat, x: Choice)
    requires Fits(v, g) && Around(v, g, c) && Heads(v.local[c].pc) && v.local[c].pc == Heading(Scan)
    ensures var v' := HeadStep(v, c, x); var g' := Recorded(v, g, c, v');
            Fits(v', g') && Queued(v', g', c) && Stays(v, v', c) && SameQueue(g, g')
  {
  }

  lemma OwnPut(v: View, g: Ghost, c: nat, x: Choice)
    requires Fits(v, g) && Around(v, g, c) && Heads(v.local[c].pc)
    requires (v.local[c].pc == Heading(PutNode) || v.local[c].pc == Heading(Exchange))
    ensures var v' := HeadStep(v, c, x); var g' := Recorded(v, g, c, v');
            Fits(v', g') && Queued(v', g', c) && Stays(v, v', c) && SameQueue(g, g')
  {
  }

  lemma OwnMark(v: View, g: Ghost, c: nat, x: Choice)
    requires Fits(v, g) && Around(v, g, c) && Heads(v.local[c].pc)
    requires (v.local[c].pc == Heading(MarkHashed) || v.local[c].pc == Heading(Wait))
    ensures var v' := HeadStep(v, c, x); var g' := Recorded(v, g, c, v');
            Fits(v', g') && Queued(v', g', c) && Stays(v, v', c) && SameQueue(g, g')
  {
  }

  lemma OwnClaim(v: View, g: Ghost, c: nat)
    requires Fits(v, g) && Around(v, g, c) && v.local[c].pc.Claiming? && !Moves(v.local[c].pc)
    ensures var v' := ClaimStep(v, c); var g' := Recorded(v, g, c, v');
            Fits(v', g') && Queued(v', g', c) && Stays(v, v', c) && SameQueue(g, g')
  {
  }

  lemma OwnKick(v: View, g: Ghost, c: nat)
    requires Fits(v, g) && Around(v, g, c) && v.local[c].pc.Kicking?
    ensures var v' := KickStep(v, c); var g' := Recorded(v, g, c, v');
            Fits(v', g') && Queued(v', g', c) && Stays(v, v', c) && SameQueue(g, g')
  {
  }

  lemma OwnUnlock(v: View, g: Ghost, c: nat)
    requires Fits(v, g) && Around(v, g, c) && v.local[c].pc.Holding?
    ensures var v' := UnlockStep(v, c); var g' := Recorded(v, g, c, v');
            Fits(v', g') && Queued(v', g', c) && Stays(v, v', c) && SameQueue(g, g')
  {
  }

  // Joining the queue, linking to the predecessor, and leaving the queue.

  lemma QueuedSwap(v: View, g: Ghost, c: nat, x: Choice, y: int)
    requires Fits(v, g) && Around(v, g, c) && v.local[c].pc.SwapTail?
    requires Linked(v, g, y) && y != c
    ensures var v' := EnterStep(v, c, x); var g' := Recorded(v, g, c, v');
            Fits(v', g') && Queued(v', g', y)
  {
  }

  lemma OwnSwap(v: View, g: Ghost, c: nat, x: Choice)
    requires Fits(v, g) && Around(v, g, c) && v.local[c].pc.SwapTail?
    ensures var v' := EnterStep(v, c, x); var g' := Recorded(v, g, c, v');
            Fits(v', g') && Queued(v', g', c)
  {
  }

  lemma QueuedLink(v: View, g: Ghost, c: nat, x: Choice, y: int)
    requires Fits(v, g) && Around(v, g, c) && v.local[c].pc.Link?
    requires Linked(v, g, y) && y != c
    ensures var v' := WaitStep(v, c, x); var g' := Recorded(v, g, c, v');
            Fits(v', g') && Queued(v', g', y)
  {
  }

  lemma OwnLink(v: View, g: Ghost, c: nat, x: Choice)
    requires Fits(v, g) && Around(v, g, c) && v.local[c].pc.Link?
    ensures var v' := WaitStep(v, c, x); var g' := Recorded(v, g, c, v');
            Fits(v', g') && Queued(v', g', c)
  {
  }

  lemma QueuedClaimAll(v: View, g: Ghost, c: nat, y: int)
    requires Fits(v, g) && Around(v, g, c) && v.local[c].pc == Claiming(ClaimAll)
    requires Linked(v, g, y) && y != c
    ensures var v' := ClaimStep(v, c); var g' := Recorded(v, g, c, v');
            Fits(v', g') && Queued(v', g', y)
  {
  }

  lemma OwnClaimAll(v: View, g: Ghost, c: nat)
    requires Fits(v, g) && Around(v, g, c) && v.local[c].pc == Claiming(ClaimAll)
    ensures var v' := ClaimStep(v, c); var g' := Recorded(v, g, c, v');
            Fits(v', g') && Queued(v', g', c)
  {
  }

  lemma QueuedHandOver(v: View, g: Ghost, c: nat, y: int)
    requires Fits(v, g) && Linked(v, g, c) && v.local[c].pc == Claiming(HandOver)
    requires Linked(v, g, y) && y != c
    ensures var v' := ClaimStep(v, c); var g' := Recorded(v, g, c, v');
            Fits(v', g') && Queued(v', g', y)
  {
  }

  lemma OwnHandOver(v: View, g: Ghost, c: nat)
    requires Fits(v, g) && Around(v, g, c) && v.local[c].pc == Claiming(HandOver)
    ensures var v' := ClaimStep(v, c); var g' := Recorded(v, g, c, v');
            Fits(v', g') && Queued(v', g', c)
  {
  }

  // Places in the queue, and its tail.

  lemma StandsSwap(v: View, g: Ghost, c: nat, x: Choice, i: int)
    requires Fits(v, g) && Around(v, g, c) && v.local[c].pc.SwapTail?
    requires Stands(v, g, i)
    ensures var v' := EnterStep(v, c, x); var g' := Recorded(v, g, c, v');
            Fits(v', g') && Stands(v', g', i)
  {
  }

  lemma StandsLink(v: View, g: Ghost, c: nat, x: Choice, i: int)
    requires Fits(v, g) && Around(v, g, c) && v.local[c].pc.Link?
    requires Stands(v, g, i)
    ensures var v' := WaitStep(v, c, x); var g' := Recorded(v, g, c, v');
            Fits(v', g') && Stands(v', g', i)
  {
  }

  lemma StandsClaim(v: View, g: Ghost, c: nat, i: int)
    requires Fits(v, g) && Around(v, g, c) && v.local[c].pc.Claiming? && Moves(v.local[c].pc)
    requires Stands(v, g, i)
    ensures var v' := ClaimStep(v, c); var g' := Recorded(v, g, c, v');
            Fits(v', g') && Stands(v', g', i)
  {
  }

  lemma TailEnter(v: View, g: Ghost, c: nat, x: Choice)
    requires Fits(v, g) && Around(v, g, c) && Enters(v.local[c].pc)
    ensures var v' := EnterStep(v, c, x); var g' := Recorded(v, g, c, v');
            Fits(v', g') && TailOk(v', g')
  {
  }

  lemma TailWait(v: View, g: Ghost, c: nat, x: Choice)
    requires Fits(v, g) && Around(v, g, c) && Waits(v.local[c].pc)
    ensures var v' := WaitStep(v, c, x); var g' := Recorded(v, g, c, v');
            Fits(v', g') && TailOk(v', g')
  {
  }

  lemma TailHead(v: View, g: Ghost, c: nat, x: Choice)
    requires Fits(v, g) && Around(v, g, c) && Heads(v.local[c].pc)
    ensures var v' := HeadStep(v, c, x); var g' := Recorded(v, g, c, v');
            Fits(v', g') && TailOk(v', g')
  {
    hide Stands;
  }

  lemma TailClaim(v: View, g: Ghost, c: nat)
    requires Fits(v, g) && Around(v, g, c) && v.local[c].pc.Claiming?
    ensures var v' := ClaimStep(v, c); var g' := Recorded(v, g, c, v');
            Fits(v', g') && TailOk(v', g')
  {
  }

  lemma TailKick(v: View, g: Ghost, c: nat)
    requires Fits(v, g) && Around(v, g, c) && v.local[c].pc.Kicking?
    ensures var v' := KickStep(v, c); var g' := Recorded(v, g, c, v');
            Fits(v', g') && TailOk(v', g')
  {
  }

  lemma TailUnlock(v: View, g: Ghost, c: nat)
    requires Fits(v, g) && Around(v, g, c) && v.local[c].pc.Holding?
    ensures var v' := UnlockStep(v, c); var g' := Recorded(v, g, c, v');
            Fits(v', g') && TailOk(v', g')
  {
  }

  // ---------------------------------------------------------------------------
  // The hash table
  // ---------------------------------------------------------------------------

  /** A halted vCPU waits for the queue lock; one that the holder has advanced to hashed is queue head. */
  predicate VcpuOk(v: View, c: int)
    requires Shaped(v) && CtxIn(v, c)
  {
    var me, nd := v.local[c], v.node[c];
    && (nd.state.Halted? ==> me.pc == Waiting(Check) || me.pc == Waiting(Sleep) || me.pc == Waiting(Unhalt))
    && (me.pc.Link? || Tries(me.pc) ==> nd.state.Running?)
    && (me.pc.Waiting? && nd.state.Hashed? ==> nd.locked && !me.pc.wait.Halt?)
    && (me.pc.Fast? || Tries(me.pc) || Waits(me.pc) || me.pc.ReadState? ==> me.lp.NotYet?)
    && (me.pc == Heading(Scan) || me.pc == Heading(PutNode) ==> me.lp.NotYet?)
    && (me.pc == Heading(Exchange) || me.pc == Claiming(MarkTaken) || me.pc == Claiming(Unenter) ==> me.lp.Own?)
  }

  /** The queue head is about to announce, or to take back, the entry it has made. */
  predicate Entering(pc: Pc) { pc == Heading(PutNode) || pc == Heading(Exchange) || pc == Claiming(Unenter) }

  /** The queue head will not make an entry any more: one has been made, by itself or by the holder
      that passed it the queue. */
  predicate Settled(me: Local, nd: Node) {
    if me.pc.Heading? then !me.lp.NotYet? && me.pc != Heading(Exchange)
    else (me.pc.Waiting? || me.pc.LoadNext? || me.pc.ReadState?) && nd.state.Hashed?
  }

  predicate HasEntry(v: View, g: Ghost) { 0 <= g.entry < |v.slots| && v.slots[g.entry].lock == v.lock }

  /** The lock's entry names its queue head. */
  predicate Published(v: View, g: Ghost) { HasEntry(v, g) && v.slots[g.entry].node == First(g) }

  /** The entry that the queue head `f` makes for itself. */
  predicate HeadOk(v: View, g: Ghost, f: int)
    requires CtxIn(v, f)
  {
    var me := v.local[f];
    && (Entering(me.pc) || me.pc == Claiming(MarkTaken) ==> HasEntry(v, g) && g.entry == me.slot)
    && (me.pc == Heading(Exchange) ==> v.slots[me.slot].node == f)
    && (me.pc.Claiming? ==> if me.pc == Claiming(MarkTaken) then v.word.locked.Slow? else v.word.locked.Taken?)
  }

  /** The holder `h` makes the entry of the new queue head; the unlock finds the lock's entry. */
  predicate HolderOk(v: View, g: Ghost, h: int)
    requires Shaped(v) && CtxIn(v, h)
  {
    var me := v.local[h];
    && (me.pc.Kicking? ==> me.next == First(g))
    && (me.pc == Kicking(MarkSlow) ==>
          && v.word.locked.Taken? && CtxIn(v, me.next)
          && Settled(v.local[me.next], v.node[me.next]) && !v.local[me.next].lp.Own?)
    && (me.pc == Kicking(KickScan) || me.pc == Kicking(KickPut) ==> v.word.locked.Slow?)
    && (me.pc == Kicking(KickPut) ==> g.entry == me.slot)
    && (me.pc.Holding? && !me.pc.hold.Release? ==> v.word.locked.Slow?)
    && (me.pc == Holding(UnScan) ==>
          me.off <= |v.slots| && forall k :: 0 <= k < me.off ==> Probe(v.base, |v.slots|, k) != g.entry)
    && (me.pc == Holding(UnNode) || me.pc == Holding(UnClear) ==> g.entry == me.slot)
    && (me.pc == Holding(UnClear) ==> me.next == First(g))
  }

  /** What a locked byte of _Q_SLOW_VAL says. */
  predicate SlowOk(v: View, g: Ghost)
    requires Shaped(v)
  {
    var f, h := First(g), g.holder;
    && CtxIn(v, h)
    && (v.local[h].pc != Claiming(MarkTaken) ==>
          && CtxIn(v, f) && Settled(v.local[f], v.node[f])
          && (if v.local[h].pc == Kicking(KickScan) || v.local[h].pc == Holding(FreeByte) then g.entry == None
              else if v.local[h].pc == Kicking(KickPut) then HasEntry(v, g)
              else Published(v, g)))
  }

  predicate TableOk(v: View, g: Ghost)
    requires Shaped(v)
  {
    && (g.entry == None || HasEntry(v, g))
    && (CtxIn(v, First(g)) ==> HeadOk(v, g, First(g)))
    && (CtxIn(v, g.holder) ==> HolderOk(v, g, g.holder))
    && (if v.word.locked.Slow? then SlowOk(v, g)
        else g.entry == None || (CtxIn(v, First(g)) && Entering(v.local[First(g)].pc)))
  }

  /** No other slot holds the lock. */
  predicate SlotOk(v: View, g: Ghost, i: int) { 0 <= i < |v.slots| && v.slots[i].lock == v.lock ==> g.entry == i }

  ghost predicate Known(v: View, g: Ghost, c: int)
    requires Fits(v, g)
  {
    CtxIn(v, c) && Queued(v, g, c) && Held(v, g, c) && VcpuOk(v, c)
  }

  /** What a step of `c` needs to know of the holder and the table. */
  ghost predicate Scene(v: View, g: Ghost, c: int)
    requires Fits(v, g)
  {
    && Known(v, g, c) && TailOk(v, g) && ByteOk(v, g) && TableOk(v, g)
    && Stands(v, g, g.gone) && Stands(v, g, g.gone + 1) && Stands(v, g, |g.line| - 1)
    && (CtxIn(v, First(g)) ==> Known(v, g, First(g)))
    && (CtxIn(v, g.holder) ==> Known(v, g, g.holder))
    && (CtxIn(v, At(g, g.gone + 1)) ==> Known(v, g, At(g, g.gone + 1)))
  }

  /** Program points whose step changes the table. */
  predicate Writes(pc: Pc) { Scans(pc) || Clears(pc) || pc == Heading(PutNode) || pc == Kicking(KickPut) }

  // The holder and the locked byte.

  lemma HeldEnter(v: View, g: Ghost, c: nat, x: Choice, y: int)
    requires Fits(v, g) && CtxIn(v, c) && CtxOk(v, c) && Held(v, g, c) && ByteOk(v, g)
    requires Enters(v.local[c].pc)
    requires CtxIn(v, y) && Held(v, g, y)
    ensures var v' := EnterStep(v, c, x); var g' := Recorded(v, g, c, v');
            Fits(v', g') && Held(v', g', y) && ByteOk(v', g')
  {
  }

  lemma HeldWait(v: View, g: Ghost, c: nat, x: Choice, y: int)
    requires Fits(v, g) && CtxIn(v, c) && CtxOk(v, c) && Held(v, g, c) && ByteOk(v, g)
    requires Waits(v.local[c].pc)
    requires CtxIn(v, y) && Held(v, g, y)
    ensures var v' := WaitStep(v, c, x); var g' := Recorded(v, g, c, v');
            Fits(v', g') && Held(v', g', y) && ByteOk(v', g')
  {
  }

  lemma HeldHead(v: View, g: Ghost, c: nat, x: Choice, y: int)
    requires Fits(v, g) && CtxIn(v, c) && CtxOk(v, c) && Held(v, g, c) && ByteOk(v, g)
    requires Heads(v.local[c].pc)
    requires CtxIn(v, y) && Held(v, g, y)
    ensures var v' := HeadStep(v, c, x); var g' := Recorded(v, g, c, v');
            Fits(v', g') && Held(v', g', y) && ByteOk(v', g')
  {
  }

  lemma HeldClaim(v: View, g: Ghost, c: nat, y: int)
    requires Fits(v, g) && CtxIn(v, c) && CtxOk(v, c) && Held(v, g, c) && ByteOk(v, g)
    requires v.local[c].pc.Claiming?
    requires CtxIn(v, y) && Held(v, g, y)
    ensures var v' := ClaimStep(v, c); var g' := Recorded(v, g, c, v');
            Fits(v', g') && Held(v', g', y) && ByteOk(v', g')
  {
  }

  lemma HeldKick(v: View, g: Ghost, c: nat, y: int)
    requires Fits(v, g) && CtxIn(v, c) && CtxOk(v, c) && Held(v, g, c) && ByteOk(v, g)
    requires v.local[c].pc.Kicking?
    requires CtxIn(v, y) && Held(v, g, y)
    ensures var v' := KickStep(v, c); var g' := Recorded(v, g, c, v');
            Fits(v', g') && Held(v', g', y) && ByteOk(v', g')
  {
  }

  lemma HeldUnlock(v: View, g: Ghost, c: nat, y: int)
    requires Fits(v, g) && CtxIn(v, c) && CtxOk(v, c) && Held(v, g, c) && ByteOk(v, g)
    requires v.local[c].pc.Holding?
    requires CtxIn(v, y) && Held(v, g, y)
    ensures var v' := UnlockStep(v, c); var g' := Recorded(v, g, c, v');
            Fits(v', g') && Held(v', g', y) && ByteOk(v', g')
  {
  }

  // vCPU states: of the other contexts, then of the stepping one.

  lemma VcpuOtherEnter(v: View, c: nat, x: Choice, y: int)
    requires Shaped(v) && CtxIn(v, c) && CtxOk(v, c) && Enters(v.local[c].pc)
    requires CtxIn(v, y) && y != c && VcpuOk(v, y)
    ensures var v' := EnterStep(v, c, x); Shaped(v') && VcpuOk(v', y)
  {
  }

  lemma VcpuOtherWait(v: View, c: nat, x: Choice, y: int)
    requires Shaped(v) && CtxIn(v, c) && CtxOk(v, c) && Waits(v.local[c].pc)
    requires CtxIn(v, y) && y != c && VcpuOk(v, y)
    ensures var v' := WaitStep(v, c, x); Shaped(v') && VcpuOk(v', y)
  {
  }

  lemma VcpuOtherHead(v: View, c: nat, x: Choice, y: int)
    requires Shaped(v) && CtxIn(v, c) && CtxOk(v, c) && Heads(v.local[c].pc)
    requires CtxIn(v, y) && y != c && VcpuOk(v, y)
    ensures var v' := HeadStep(v, c, x); Shaped(v') && VcpuOk(v', y)
  {
  }

  lemma VcpuOtherClaim(v: View, c: nat, y: int)
    requires Shaped(v) && CtxIn(v, c) && CtxOk(v, c) && v.local[c].pc.Claiming?
    requires CtxIn(v, y) && y != c && VcpuOk(v, y)
    ensures var v' := ClaimStep(v, c); Shaped(v') && VcpuOk(v', y)
  {
  }

  lemma VcpuOtherKick(v: View, g: Ghost, c: nat, y: int)
    requires Fits(v, g) && Known(v, g, c) && TableOk(v, g) && Stands(v, g, g.gone)
    requires v.local[c].pc.Kicking?
    requires CtxIn(v, y) && VcpuOk(v, y) && Queued(v, g, y)
    ensures var v' := KickStep(v, c); Shaped(v') && VcpuOk(v', y)
  {
    hide SlowOk, HeadOk, CtxOk;
  }

  lemma VcpuOtherUnlock(v: View, c: nat, y: int)
    requires Shaped(v) && CtxIn(v, c) && CtxOk(v, c) && v.local[c].pc.Holding?
    requires CtxIn(v, y) && y != c && VcpuOk(v, y)
    ensures var v' := UnlockStep(v, c); Shaped(v') && VcpuOk(v', y)
  {
  }

  lemma VcpuOwnEnter(v: View, g: Ghost, c: nat, x: Choice)
    requires Fits(v, g) && Known(v, g, c) && Enters(v.local[c].pc)
    ensures var v' := EnterStep(v, c, x); Shaped(v') && VcpuOk(v', c)
  {
  }

  lemma VcpuOwnLink(v: View, g: Ghost, c: nat, x: Choice)
    requires Fits(v, g) && Known(v, g, c) && v.local[c].pc.Link?
    ensures var v' := WaitStep(v, c, x); Shaped(v') && VcpuOk(v', c)
  {
  }

  lemma VcpuOwnSpin(v: View, g: Ghost, c: nat, x: Choice)
    requires Fits(v, g) && Known(v, g, c)
    requires (v.local[c].pc == Waiting(Spin) || v.local[c].pc == Waiting(Halt))
    ensures var v' := WaitStep(v, c, x); Shaped(v') && VcpuOk(v', c)
  {
  }

  lemma VcpuOwnSleep(v: View, g: Ghost, c: nat, x: Choice)
    requires Fits(v, g) && Known(v, g, c)
    requires v.local[c].pc == Waiting(Check) || v.local[c].pc == Waiting(Sleep) || v.local[c].pc == Waiting(Unhalt)
    ensures var v' := WaitStep(v, c, x); Shaped(v') && VcpuOk(v', c)
  {
  }

  lemma VcpuOwnLoad(v: View, g: Ghost, c: nat, x: Choice)
    requires Fits(v, g) && Known(v, g, c) && v.local[c].pc.LoadNext?
    ensures var v' := WaitStep(v, c, x); Shaped(v') && VcpuOk(v', c)
  {
  }

  lemma VcpuOwnRead(v: View, g: Ghost, c: nat, x: Choice)
    requires Fits(v, g) && Known(v, g, c) && v.local[c].pc.ReadState?
    ensures var v' := HeadStep(v, c, x); Shaped(v') && VcpuOk(v', c)
  {
  }

  lemma VcpuOwnHead(v: View, g: Ghost, c: nat, x: Choice)
    requires Fits(v, g) && Known(v, g, c) && v.local[c].pc.Heading? && !Hashing(v.local[c].pc)
    ensures var v' := HeadStep(v, c, x); Shaped(v') && VcpuOk(v', c)
  {
  }

  lemma VcpuOwnHashing(v: View, g: Ghost, c: nat, x: Choice)
    requires Fits(v, g) && Known(v, g, c) && Hashing(v.local[c].pc)
    ensures var v' := HeadStep(v, c, x); Shaped(v') && VcpuOk(v', c)
  {
  }

  lemma VcpuOwnClaim(v: View, g: Ghost, c: nat)
    requires Fits(v, g) && Known(v, g, c) && v.local[c].pc.Claiming?
    ensures var v' := ClaimStep(v, c); Shaped(v') && VcpuOk(v', c)
  {
  }

  lemma VcpuOwnUnlock(v: View, g: Ghost, c: nat)
    requires Fits(v, g) && Known(v, g, c) && v.local[c].pc.Holding?
    ensures var v' := UnlockStep(v, c); Shaped(v') && VcpuOk(v', c)
  {
  }

  // The lock's entry, its queue head and its holder.

  lemma TableEnter(v: View, g: Ghost, c: nat, x: Choice)
    requires Fits(v, g) && Known(v, g, c) && ByteOk(v, g) && TableOk(v, g)
    requires (v.local[c].pc.Idle? || v.local[c].pc.Fast? || v.local[c].pc.StealRead?)
    ensures var v' := EnterStep(v, c, x); var g' := Recorded(v, g, c, v');
            Fits(v', g') && TableOk(v', g')
  {
    hide CtxOk;
  }

  lemma TableSteal(v: View, g: Ghost, c: nat, x: Choice)
    requires Fits(v, g) && Known(v, g, c) && ByteOk(v, g) && TableOk(v, g) && v.local[c].pc.StealCas?
    ensures var v' := EnterStep(v, c, x); var g' := Recorded(v, g, c, v');
            Fits(v', g') && TableOk(v', g')
  {
  }

  lemma TableSwap(v: View, g: Ghost, c: nat, x: Choice)
    requires Fits(v, g) && Known(v, g, c) && ByteOk(v, g) && TableOk(v, g) && v.local[c].pc.SwapTail?
    requires TailOk(v, g)
    requires CtxIn(v, g.holder) ==> Known(v, g, g.holder)
    ensures var v' := EnterStep(v, c, x); var g' := Recorded(v, g, c, v');
            Fits(v', g') && TableOk(v', g')
  {
  }

  lemma TableLink(v: View, g: Ghost, c: nat, x: Choice)
    requires Fits(v, g) && Known(v, g, c) && ByteOk(v, g) && TableOk(v, g) && v.local[c].pc.Link?
    ensures var v' := WaitStep(v, c, x); var g' := Recorded(v, g, c, v');
            Fits(v', g') && TableOk(v', g')
  {
  }

  lemma TableSpin(v: View, g: Ghost, c: nat, x: Choice)
    requires Fits(v, g) && Known(v, g, c) && ByteOk(v, g) && TableOk(v, g)
    requires (v.local[c].pc == Waiting(Spin))
    ensures var v' := WaitStep(v, c, x); var g' := Recorded(v, g, c, v');
            Fits(v', g') && TableOk(v', g')
  {
  }

  lemma TableHalt(v: View, g: Ghost, c: nat, x: Choice)
    requires Fits(v, g) && Known(v, g, c) && ByteOk(v, g) && TableOk(v, g)
    requires v.local[c].pc == Waiting(Halt) || v.local[c].pc == Waiting(Check) || v.local[c].pc == Waiting(Sleep)
    ensures var v' := WaitStep(v, c, x); var g' := Recorded(v, g, c, v');
            Fits(v', g') && TableOk(v', g')
  {
  }

  lemma TableUnhalt(v: View, g: Ghost, c: nat, x: Choice)
    requires Fits(v, g) && Known(v, g, c) && ByteOk(v, g) && TableOk(v, g)
    requires (v.local[c].pc == Waiting(Unhalt))
    ensures var v' := WaitStep(v, c, x); var g' := Recorded(v, g, c, v');
            Fits(v', g') && TableOk(v', g')
  {
  }

  lemma TableLoad(v: View, g: Ghost, c: nat, x: Choice)
    requires Fits(v, g) && Known(v, g, c) && ByteOk(v, g) && TableOk(v, g) && v.local[c].pc.LoadNext?
    ensures var v' := WaitStep(v, c, x); var g' := Recorded(v, g, c, v');
            Fits(v', g') && TableOk(v', g')
  {
  }

  lemma TableRead(v: View, g: Ghost, c: nat, x: Choice)
    requires Fits(v, g) && Known(v, g, c) && ByteOk(v, g) && TableOk(v, g) && v.local[c].pc.ReadState?
    ensures var v' := HeadStep(v, c, x); var g' := Recorded(v, g, c, v');
            Fits(v', g') && TableOk(v', g')
  {
  }

  lemma TableRun(v: View, g: Ghost, c: nat, x: Choice)
    requires Fits(v, g) && Known(v, g, c) && ByteOk(v, g) && TableOk(v, g)
    requires (v.local[c].pc == Heading(MarkRunning) || v.local[c].pc == Heading(SetPending))
    ensures var v' := HeadStep(v, c, x); var g' := Recorded(v, g, c, v');
            Fits(v', g') && TableOk(v', g')
  {
  }

  lemma TableTry(v: View, g: Ghost, c: nat, x: Choice)
    requires Fits(v, g) && Known(v, g, c) && ByteOk(v, g) && TableOk(v, g)
    requires (v.local[c].pc == Heading(TryLock) || v.local[c].pc == Heading(ClearPending))
    ensures var v' := HeadStep(v, c, x); var g' := Recorded(v, g, c, v');
            Fits(v', g') && TableOk(v', g')
  {
    hide CtxOk;
  }

  lemma TableScan(v: View, g: Ghost, c: nat, x: Choice)
    requires Fits(v, g) && Known(v, g, c) && ByteOk(v, g) && TableOk(v, g)
    requires (v.local[c].pc == Heading(Scan) || v.local[c].pc == Heading(PutNode))
    ensures var v' := HeadStep(v, c, x); var g' := Recorded(v, g, c, v');
            Fits(v', g') && TableOk(v', g')
  {
  }

  lemma TableExchange(v: View, g: Ghost, c: nat, x: Choice)
    requires Fits(v, g) && Known(v, g, c) && ByteOk(v, g) && TableOk(v, g)
    requires (v.local[c].pc == Heading(Exchange))
    ensures var v' := HeadStep(v, c, x); var g' := Recorded(v, g, c, v');
            Fits(v', g') && TableOk(v', g')
  {
  }

  lemma TableMark(v: View, g: Ghost, c: nat, x: Choice)
    requires Fits(v, g) && Known(v, g, c) && ByteOk(v, g) && TableOk(v, g)
    requires (v.local[c].pc == Heading(MarkHashed) || v.local[c].pc == Heading(Wait))
    ensures var v' := HeadStep(v, c, x); var g' := Recorded(v, g, c, v');
            Fits(v', g') && TableOk(v', g')
  {
  }

  lemma TableTaken(v: View, g: Ghost, c: nat)
    requires Fits(v, g) && Known(v, g, c) && ByteOk(v, g) && TableOk(v, g)
    requires (v.local[c].pc == Claiming(MarkTaken) || v.local[c].pc == Claiming(Unenter))
    ensures var v' := ClaimStep(v, c); var g' := Recorded(v, g, c, v');
            Fits(v', g') && TableOk(v', g')
  {
  }

  lemma TableWord(v: View, g: Ghost, c: nat)
    requires Fits(v, g) && Known(v, g, c) && ByteOk(v, g) && TableOk(v, g)
    requires (v.local[c].pc == Claiming(ReadWord))
    ensures var v' := ClaimStep(v, c); var g' := Recorded(v, g, c, v');
            Fits(v', g') && TableOk(v', g')
  {
  }

  lemma TableClaimAll(v: View, g: Ghost, c: nat)
    requires Fits(v, g) && Known(v, g, c) && ByteOk(v, g) && TableOk(v, g) && TailOk(v, g)
    requires Stands(v, g, |g.line| - 1) && (v.local[c].pc == Claiming(ClaimAll))
    ensures var v' := ClaimStep(v, c); var g' := Recorded(v, g, c, v');
            Fits(v', g') && TableOk(v', g')
  {
  }

  lemma TableSet(v: View, g: Ghost, c: nat)
    requires Fits(v, g) && Known(v, g, c) && ByteOk(v, g) && TableOk(v, g)
    requires (v.local[c].pc == Claiming(SetLocked) || v.local[c].pc == Claiming(AwaitNext))
    ensures var v' := ClaimStep(v, c); var g' := Recorded(v, g, c, v');
            Fits(v', g') && TableOk(v', g')
  {
  }

  lemma TableHandOver(v: View, g: Ghost, c: nat)
    requires Fits(v, g) && Known(v, g, c) && ByteOk(v, g) && TableOk(v, g)
    requires (v.local[c].pc == Claiming(HandOver))
    requires Stands(v, g, g.gone + 1)
    requires (CtxIn(v, At(g, g.gone + 1)) ==> Known(v, g, At(g, g.gone + 1)))
    ensures var v' := ClaimStep(v, c); var g' := Recorded(v, g, c, v');
            Fits(v', g') && TableOk(v', g')
  {
  }

  lemma TableKick(v: View, g: Ghost, c: nat)
    requires Fits(v, g) && Known(v, g, c) && ByteOk(v, g) && TableOk(v, g)
    requires (v.local[c].pc == Kicking(KickState) || v.local[c].pc == Kicking(MarkSlow))
    requires (CtxIn(v, First(g)) ==> Known(v, g, First(g)))
    ensures var v' := KickStep(v, c); var g' := Recorded(v, g, c, v');
            Fits(v', g') && TableOk(v', g')
  {
  }

  lemma TableInsert(v: View, g: Ghost, c: nat)
    requires Fits(v, g) && Known(v, g, c) && ByteOk(v, g) && TableOk(v, g)
    requires (v.local[c].pc == Kicking(KickScan) || v.local[c].pc == Kicking(KickPut))
    ensures var v' := KickStep(v, c); var g' := Recorded(v, g, c, v');
            Fits(v', g') && TableOk(v', g')
  {
  }

  lemma TableRelease(v: View, g: Ghost, c: nat)
    requires Fits(v, g) && Known(v, g, c) && ByteOk(v, g) && TableOk(v, g)
    requires (v.local[c].pc == Holding(Release) || v.local[c].pc == Holding(FreeByte))
    requires (CtxIn(v, First(g)) ==> Known(v, g, First(g)))
    ensures var v' := UnlockStep(v, c); var g' := Recorded(v, g, c, v');
            Fits(v', g') && TableOk(v', g')
  {
  }

  lemma TableUnhash(v: View, g: Ghost, c: nat)
    requires Fits(v, g) && Known(v, g, c) && ByteOk(v, g) && TableOk(v, g)
    requires (v.local[c].pc == Holding(UnScan))
    requires (CtxIn(v, First(g)) ==> Known(v, g, First(g)))
    requires v.local[c].off < |v.slots| ==> SlotOk(v, g, Probe(v.base, |v.slots|, v.local[c].off))
    ensures var v' := UnlockStep(v, c); var g' := Recorded(v, g, c, v');
            Fits(v', g') && TableOk(v', g')
  {
  }

  lemma TableUnNode(v: View, g: Ghost, c: nat)
    requires Fits(v, g) && Known(v, g, c) && ByteOk(v, g) && TableOk(v, g)
    requires (v.local[c].pc == Holding(UnNode) || v.local[c].pc == Holding(UnClear))
    requires (CtxIn(v, First(g)) ==> Known(v, g, First(g)))
    ensures var v' := UnlockStep(v, c); var g' := Recorded(v, g, c, v');
            Fits(v', g') && TableOk(v', g')
  {
  }

  // The slots.

  lemma SlotsEnter(v: View, g: Ghost, c: nat, x: Choice)
    requires Fits(v, g) && CtxIn(v, c) && CtxOk(v, c) && Enters(v.local[c].pc)
    requires !Writes(v.local[c].pc)
    ensures var v' := EnterStep(v, c, x); var g' := Recorded(v, g, c, v');
            v'.slots == v.slots && g'.entry == g.entry
  {
  }

  lemma SlotsWait(v: View, g: Ghost, c: nat, x: Choice)
    requires Fits(v, g) && CtxIn(v, c) && CtxOk(v, c) && Waits(v.local[c].pc)
    requires !Writes(v.local[c].pc)
    ensures var v' := WaitStep(v, c, x); var g' := Recorded(v, g, c, v');
            v'.slots == v.slots && g'.entry == g.entry
  {
  }

  lemma SlotsHead(v: View, g: Ghost, c: nat, x: Choice)
    requires Fits(v, g) && CtxIn(v, c) && CtxOk(v, c) && Heads(v.local[c].pc)
    requires !Writes(v.local[c].pc)
    ensures var v' := HeadStep(v, c, x); var g' := Recorded(v, g, c, v');
            v'.slots == v.slots && g'.entry == g.entry
  {
  }

  lemma SlotsClaim(v: View, g: Ghost, c: nat)
    requires Fits(v, g) && CtxIn(v, c) && CtxOk(v, c) && v.local[c].pc.Claiming?
    requires !Writes(v.local[c].pc)
    ensures var v' := ClaimStep(v, c); var g' := Recorded(v, g, c, v');
            v'.slots == v.slots && g'.entry == g.entry
  {
  }

  lemma SlotsKick(v: View, g: Ghost, c: nat)
    requires Fits(v, g) && CtxIn(v, c) && CtxOk(v, c) && v.local[c].pc.Kicking?
    requires !Writes(v.local[c].pc)
    ensures var v' := KickStep(v, c); var g' := Recorded(v, g, c, v');
            v'.slots == v.slots && g'.entry == g.entry
  {
  }

  lemma SlotsUnlock(v: View, g: Ghost, c: nat)
    requires Fits(v, g) && CtxIn(v, c) && CtxOk(v, c) && v.local[c].pc.Holding?
    requires !Writes(v.local[c].pc)
    ensures var v' := UnlockStep(v, c); var g' := Recorded(v, g, c, v');
            v'.slots == v.slots && g'.entry == g.entry
  {
  }

  lemma SlotScan(v: View, g: Ghost, c: nat, x: Choice, i: int)
    requires Fits(v, g) && Known(v, g, c) && ByteOk(v, g) && TableOk(v, g)
    requires (v.local[c].pc == Heading(Scan))
    requires SlotOk(v, g, i)
    requires CtxIn(v, g.holder) ==> Known(v, g, g.holder)
    ensures var v' := HeadStep(v, c, x); var g' := Recorded(v, g, c, v');
            Fits(v', g') && SlotOk(v', g', i)
  {
  }

  lemma SlotPut(v: View, g: Ghost, c: nat, x: Choice, i: int)
    requires Fits(v, g) && Known(v, g, c) && ByteOk(v, g) && TableOk(v, g)
    requires (v.local[c].pc == Heading(PutNode))
    requires SlotOk(v, g, i)
    ensures var v' := HeadStep(v, c, x); var g' := Recorded(v, g, c, v');
            Fits(v', g') && SlotOk(v', g', i)
  {
  }

  lemma SlotClear(v: View, g: Ghost, c: nat, i: int)
    requires Fits(v, g) && Known(v, g, c) && ByteOk(v, g) && TableOk(v, g)
    requires (v.local[c].pc == Claiming(Unenter))
    requires SlotOk(v, g, i)
    ensures var v' := ClaimStep(v, c); var g' := Recorded(v, g, c, v');
            Fits(v', g') && SlotOk(v', g', i)
  {
  }

  lemma SlotInsert(v: View, g: Ghost, c: nat, i: int)
    requires Fits(v, g) && Known(v, g, c) && ByteOk(v, g) && TableOk(v, g)
    requires (v.local[c].pc == Kicking(KickScan) || v.local[c].pc == Kicking(KickPut))
    requires SlotOk(v, g, i)
    ensures var v' := KickStep(v, c); var g' := Recorded(v, g, c, v');
            Fits(v', g') && SlotOk(v', g', i)
  {
  }

  lemma SlotUnhash(v: View, g: Ghost, c: nat, i: int)
    requires Fits(v, g) && Known(v, g, c) && ByteOk(v, g) && TableOk(v, g)
    requires (v.local[c].pc == Holding(UnClear))
    requires SlotOk(v, g, i)
    ensures var v' := UnlockStep(v, c); var g' := Recorded(v, g, c, v');
            Fits(v', g') && SlotOk(v', g', i)
  {
  }

  // ---------------------------------------------------------------------------
  // One lock
  // ---------------------------------------------------------------------------

  ghost predicate Inv(v: View, g: Ghost) {
    && Fits(v, g) && TailOk(v, g) && ByteOk(v, g) && TableOk(v, g)
    && (forall c :: CtxIn(v, c) ==> Known(v, g, c))
    && (forall i :: Stands(v, g, i))
    && (forall i :: SlotOk(v, g, i))
  }

  lemma SceneHolds(v: View, g: Ghost, c: int)
    requires Inv(v, g) && CtxIn(v, c)
    ensures Fits(v, g) && Scene(v, g, c) && Around(v, g, c) && Linked(v, g, c) && CtxOk(v, c)
  {
    hide TailOk, ByteOk, TableOk, VcpuOk, Stands, SlotOk, First;
    assert Known(v, g, c);
  }

  lemma StepOf(v: View, c: nat, x: Choice)
    requires Shaped(v) && CtxIn(v, c) && CtxOk(v, c)
    ensures var pc := v.local[c].pc;
            && (Enters(pc) ==> Step(v, c, x) == EnterStep(v, c, x))
            && (Waits(pc) ==> Step(v, c, x) == WaitStep(v, c, x))
            && (Heads(pc) ==> Step(v, c, x) == HeadStep(v, c, x))
            && (pc.Claiming? ==> Step(v, c, x) == ClaimStep(v, c))
            && (pc.Kicking? ==> Step(v, c, x) == KickStep(v, c))
            && (pc.Holding? ==> Step(v, c, x) == UnlockStep(v, c))
  {
    hide EnterStep, WaitStep, HeadStep, ClaimStep, KickStep, UnlockStep;
  }

  /** The queue as seen by the stepping context, unless the step changes the queue. */
  lemma OwnKept(v: View, g: Ghost, c: nat, x: Choice)
    requires Inv(v, g) && CtxIn(v, c) && CtxOk(v, c) && !Moves(v.local[c].pc)
    ensures var v' := Step(v, c, x); var g' := Recorded(v, g, c, v');
            Fits(v', g') && Queued(v', g', c) && Stays(v, v', c) && SameQueue(g, g')
  {
    hide TailOk, ByteOk, TableOk, VcpuOk, Stands, SlotOk, Queued, Around, Scene, Linked, Recorded, Known, Inv,
      EnterStep, WaitStep, HeadStep, ClaimStep, KickStep, UnlockStep, Step, Stays;
    SceneHolds(v, g, c);
    StepOf(v, c, x);
    match v.local[c].pc
    case Waiting(Spin) => OwnSpin(v, g, c, x);
    case Waiting(Unhalt) => OwnUnhalt(v, g, c, x);
    case Waiting(Halt) => OwnHalt(v, g, c, x);
    case Waiting(Check) => OwnHalt(v, g, c, x);
    case Waiting(Sleep) => OwnHalt(v, g, c, x);
    case LoadNext => OwnLoad(v, g, c, x);
    case ReadState => OwnHead(v, g, c, x);
    case Heading(h) =>
      if h.TryLock? { OwnTry(v, g, c, x); }
      else if h.Scan? { OwnScan(v, g, c, x); }
      else if h.PutNode? || h.Exchange? { OwnPut(v, g, c, x); }
      else if h.MarkHashed? || h.Wait? { OwnMark(v, g, c, x); }
      else { OwnHead(v, g, c, x); }
    case Claiming(_) => OwnClaim(v, g, c);
    case Kicking(_) => OwnKick(v, g, c);
    case Holding(_) => OwnUnlock(v, g, c);
    case Idle => OwnEnter(v, g, c, x);
    case Fast => OwnEnter(v, g, c, x);
    case StealRead(_) => OwnEnter(v, g, c, x);
    case StealCas(_) => OwnEnter(v, g, c, x);
  }

  lemma OtherSame(v: View, c: nat, x: Choice, y: int)
    requires Shaped(v) && CtxIn(v, c) && CtxOk(v, c) && !Moves(v.local[c].pc) && CtxIn(v, y)
    requires CtxOk(v, y) && y != c
    ensures var v' := Step(v, c, x); Shaped(v') && SameSizes(v, v') && SamePlace(v, v', y)
  {
    hide CtxOk, EnterStep, WaitStep, HeadStep, ClaimStep, KickStep, UnlockStep, Step, SamePlace;
    StepOf(v, c, x);
    match v.local[c].pc
    case Waiting(_) => QuietWait(v, c, x, y);
    case LoadNext => QuietWait(v, c, x, y);
    case ReadState => QuietHead(v, c, x, y);
    case Heading(_) => QuietHead(v, c, x, y);
    case Claiming(_) => QuietClaim(v, c, y);
    case Kicking(_) => QuietKick(v, c, y);
    case Holding(_) => QuietUnlock(v, c, y);
    case Idle => QuietEnter(v, c, x, y);
    case Fast => QuietEnter(v, c, x, y);
    case StealRead(_) => QuietEnter(v, c, x, y);
    case StealCas(_) => QuietEnter(v, c, x, y);
  }

  lemma StaysKept(v: View, g: Ghost, c: nat, x: Choice, y: int)
    requires Inv(v, g) && CtxIn(v, c) && CtxOk(v, c) && !Moves(v.local[c].pc) && CtxIn(v, y)
    ensures var v' := Step(v, c, x); SameSizes(v, v') && Stays(v, v', y)
  {
    hide TailOk, ByteOk, TableOk, VcpuOk, Stands, SlotOk, Linked, Recorded, Around, Scene, Queued, CtxOk, Inv,
      EnterStep, WaitStep, HeadStep, ClaimStep, KickStep, UnlockStep, Step;
    SceneHolds(v, g, y);
    if y == c { OwnKept(v, g, c, x); } else { OtherSame(v, c, x, y); }
  }

  lemma QueuedKept(v: View, g: Ghost, c: nat, x: Choice, y: int)
    requires Inv(v, g) && CtxIn(v, c) && CtxOk(v, c) && CtxIn(v, y)
    ensures var v' := Step(v, c, x); var g' := Recorded(v, g, c, v');
            Fits(v', g') && Queued(v', g', y)
  {
    hide TailOk, ByteOk, TableOk, VcpuOk, Stands, SlotOk, Queued, CtxOk, Around, Scene, Linked, Recorded, Known, Inv,
      EnterStep, WaitStep, HeadStep, ClaimStep, KickStep, UnlockStep, Step, Stays, SamePlace, SameQueue, At;
    SceneHolds(v, g, c);
    SceneHolds(v, g, y);
    StepOf(v, c, x);
    match v.local[c].pc
    case SwapTail => if y == c { OwnSwap(v, g, c, x); } else { QueuedSwap(v, g, c, x, y); }
    case Link => if y == c { OwnLink(v, g, c, x); } else { QueuedLink(v, g, c, x, y); }
    case _ =>
      if v.local[c].pc == Claiming(ClaimAll) {
        if y == c { OwnClaimAll(v, g, c); } else { QueuedClaimAll(v, g, c, y); }
      } else if v.local[c].pc == Claiming(HandOver) {
        if y == c { OwnHandOver(v, g, c); } else { QueuedHandOver(v, g, c, y); }
      } else {
        OwnKept(v, g, c, x);
        if y != c {
          OtherSame(v, c, x, y);
          var n := At(g, g.place[y] + 1);
          if CtxIn(v, n) { StaysKept(v, g, c, x, n); }
          QueuedSame(v, Step(v, c, x), g, Recorded(v, g, c, Step(v, c, x)), y);
        }
      }
  }

  lemma StandsSame(v: View, v': View, g: Ghost, g': Ghost, i: int)
    requires Fits(v, g) && Fits(v', g') && SameSizes(v, v') && SameQueue(g, g') && Stands(v, g, i)
    requires CtxIn(v, At(g, i)) ==> Stays(v, v', At(g, i))
    ensures Stands(v', g', i)
  {
  }

  lemma StandsKept(v: View, g: Ghost, c: nat, x: Choice, i: int)
    requires Inv(v, g) && CtxIn(v, c) && CtxOk(v, c)
    ensures var v' := Step(v, c, x); var g' := Recorded(v, g, c, v');
            Fits(v', g') && Stands(v', g', i)
  {
    hide TailOk, ByteOk, TableOk, VcpuOk, Stands, SlotOk, Queued, CtxOk, Around, Scene, Linked, Recorded, Known,
      EnterStep, WaitStep, HeadStep, ClaimStep, KickStep, UnlockStep, Step, Stays, SamePlace, SameQueue, At;
    SceneHolds(v, g, c);
    StepOf(v, c, x);
    assert Stands(v, g, i);
    match v.local[c].pc
    case SwapTail => StandsSwap(v, g, c, x, i);
    case Link => StandsLink(v, g, c, x, i);
    case _ =>
      if Passes(v.local[c].pc) { StandsClaim(v, g, c, i); }
      else {
        OwnKept(v, g, c, x);
        if CtxIn(v, At(g, i)) { StaysKept(v, g, c, x, At(g, i)); }
        StandsSame(v, Step(v, c, x), g, Recorded(v, g, c, Step(v, c, x)), i);
      }
  }

  lemma TailKept(v: View, g: Ghost, c: nat, x: Choice)
    requires Inv(v, g) && CtxIn(v, c) && CtxOk(v, c)
    ensures var v' := Step(v, c, x); var g' := Recorded(v, g, c, v');
            Fits(v', g') && TailOk(v', g')
  {
    hide TailOk, ByteOk, TableOk, VcpuOk, Stands, SlotOk, Queued, CtxOk, Around, Scene, Linked, Recorded, Known, Inv,
      EnterStep, WaitStep, HeadStep, ClaimStep, KickStep, UnlockStep, Step;
    SceneHolds(v, g, c);
    StepOf(v, c, x);
    match v.local[c].pc
    case Link => TailWait(v, g, c, x);
    case Waiting(_) => TailWait(v, g, c, x);
    case LoadNext => TailWait(v, g, c, x);
    case ReadState => TailHead(v, g, c, x);
    case Heading(_) => TailHead(v, g, c, x);
    case Claiming(_) => TailClaim(v, g, c);
    case Kicking(_) => TailKick(v, g, c);
    case Holding(_) => TailUnlock(v, g, c);
    case Idle => TailEnter(v, g, c, x);
    case Fast => TailEnter(v, g, c, x);
    case StealRead(_) => TailEnter(v, g, c, x);
    case StealCas(_) => TailEnter(v, g, c, x);
    case SwapTail => TailEnter(v, g, c, x);
  }

  lemma HeldKept(v: View, g: Ghost, c: nat, x: Choice, y: int)
    requires Inv(v, g) && CtxIn(v, c) && CtxOk(v, c) && CtxIn(v, y)
    ensures var v' := Step(v, c, x); var g' := Recorded(v, g, c, v');
            Fits(v', g') && Held(v', g', y) && ByteOk(v', g')
  {
    hide TailOk, ByteOk, TableOk, VcpuOk, Stands, SlotOk, Queued, CtxOk, Recorded, Held, 
      EnterStep, WaitStep, HeadStep, ClaimStep, KickStep, UnlockStep, Step;
    StepOf(v, c, x);
    assert Known(v, g, c) && Known(v, g, y);
    match v.local[c].pc
    case Link => HeldWait(v, g, c, x, y);
    case Waiting(_) => HeldWait(v, g, c, x, y);
    case LoadNext => HeldWait(v, g, c, x, y);
    case ReadState => HeldHead(v, g, c, x, y);
    case Heading(_) => HeldHead(v, g, c, x, y);
    case Claiming(_) => HeldClaim(v, g, c, y);
    case Kicking(_) => HeldKick(v, g, c, y);
    case Holding(_) => HeldUnlock(v, g, c, y);
    case Idle => HeldEnter(v, g, c, x, y);
    case Fast => HeldEnter(v, g, c, x, y);
    case StealRead(_) => HeldEnter(v, g, c, x, y);
    case StealCas(_) => HeldEnter(v, g, c, x, y);
    case SwapTail => HeldEnter(v, g, c, x, y);
  }

  lemma VcpuOwn(v: View, g: Ghost, c: nat, x: Choice)
    requires Inv(v, g) && CtxIn(v, c) && CtxOk(v, c)
    ensures var v' := Step(v, c, x); Shaped(v') && SameSizes(v, v') && VcpuOk(v', c)
  {
    hide TailOk, ByteOk, TableOk, VcpuOk, Stands, SlotOk, Queued, CtxOk, Held, Around, Linked, 
      EnterStep, WaitStep, HeadStep, ClaimStep, KickStep, UnlockStep, Step;
    StepOf(v, c, x);
    SceneHolds(v, g, c);
    match v.local[c].pc
    case Link => VcpuOwnLink(v, g, c, x);
    case Waiting(Spin) => VcpuOwnSpin(v, g, c, x);
    case Waiting(Halt) => VcpuOwnSpin(v, g, c, x);
    case Waiting(Check) => VcpuOwnSleep(v, g, c, x);
    case Waiting(Sleep) => VcpuOwnSleep(v, g, c, x);
    case Waiting(Unhalt) => VcpuOwnSleep(v, g, c, x);
    case LoadNext => VcpuOwnLoad(v, g, c, x);
    case ReadState => VcpuOwnRead(v, g, c, x);
    case Heading(_) => if Hashing(v.local[c].pc) { VcpuOwnHashing(v, g, c, x); } else { VcpuOwnHead(v, g, c, x); }
    case Claiming(_) => VcpuOwnClaim(v, g, c);
    case Kicking(_) => VcpuOtherKick(v, g, c, c);
    case Holding(_) => VcpuOwnUnlock(v, g, c);
    case Idle => VcpuOwnEnter(v, g, c, x);
    case Fast => VcpuOwnEnter(v, g, c, x);
    case StealRead(_) => VcpuOwnEnter(v, g, c, x);
    case StealCas(_) => VcpuOwnEnter(v, g, c, x);
    case SwapTail => VcpuOwnEnter(v, g, c, x);
  }

  lemma VcpuKept(v: View, g: Ghost, c: nat, x: Choice, y: int)
    requires Inv(v, g) && CtxIn(v, c) && CtxOk(v, c) && CtxIn(v, y)
    ensures var v' := Step(v, c, x); Shaped(v') && SameSizes(v, v') && VcpuOk(v', y)
  {
    hide TailOk, ByteOk, TableOk, VcpuOk, Stands, SlotOk, Queued, CtxOk, Held, 
      EnterStep, WaitStep, HeadStep, ClaimStep, KickStep, UnlockStep, Step;
    StepOf(v, c, x);
    assert Known(v, g, y);
    if y == c {
      VcpuOwn(v, g, c, x);
    } else {
      match v.local[c].pc
      case Link => VcpuOtherWait(v, c, x, y);
      case Waiting(_) => VcpuOtherWait(v, c, x, y);
      case LoadNext => VcpuOtherWait(v, c, x, y);
      case ReadState => VcpuOtherHead(v, c, x, y);
      case Heading(_) => VcpuOtherHead(v, c, x, y);
      case Claiming(_) => VcpuOtherClaim(v, c, y);
      case Kicking(_) => SceneHolds(v, g, c); VcpuOtherKick(v, g, c, y);
      case Holding(_) => VcpuOtherUnlock(v, c, y);
      case Idle => VcpuOtherEnter(v, c, x, y);
      case Fast => VcpuOtherEnter(v, c, x, y);
      case StealRead(_) => VcpuOtherEnter(v, c, x, y);
      case StealCas(_) => VcpuOtherEnter(v, c, x, y);
      case SwapTail => VcpuOtherEnter(v, c, x, y);
    }
  }

  lemma TableKept(v: View, g: Ghost, c: nat, x: Choice)
    requires Inv(v, g) && CtxIn(v, c) && CtxOk(v, c)
    ensures var v' := Step(v, c, x); var g' := Recorded(v, g, c, v');
            Fits(v', g') && TableOk(v', g')
  {
    hide TailOk, ByteOk, TableOk, VcpuOk, Stands, SlotOk, Queued, CtxOk, Around, Linked, Recorded, Known, First, At,
      Held, Probe, EnterStep, WaitStep, HeadStep, ClaimStep, KickStep, UnlockStep, Step;
    SceneHolds(v, g, c);
    StepOf(v, c, x);
    match v.local[c].pc
    case Idle => TableEnter(v, g, c, x);
    case Fast => TableEnter(v, g, c, x);
    case StealRead(_) => TableEnter(v, g, c, x);
    case StealCas(_) => TableSteal(v, g, c, x);
    case SwapTail => TableSwap(v, g, c, x);
    case Link => TableLink(v, g, c, x);
    case Waiting(w) =>
      if w.Spin? { TableSpin(v, g, c, x); }
      else if w.Unhalt? { TableUnhalt(v, g, c, x); }
      else { TableHalt(v, g, c, x); }
    case LoadNext => TableLoad(v, g, c, x);
    case ReadState => TableRead(v, g, c, x);
    case Heading(h) =>
      if h.MarkRunning? || h.SetPending? { TableRun(v, g, c, x); }
      else if h.TryLock? || h.ClearPending? { TableTry(v, g, c, x); }
      else if h.Scan? || h.PutNode? { TableScan(v, g, c, x); }
      else if h.Exchange? { TableExchange(v, g, c, x); }
      else { TableMark(v, g, c, x); }
    case Claiming(k) =>
      if k.MarkTaken? || k.Unenter? { TableTaken(v, g, c); }
      else if k.ReadWord? { TableWord(v, g, c); }
      else if k.ClaimAll? { TableClaimAll(v, g, c); }
      else if k.HandOver? { TableHandOver(v, g, c); }
      else { TableSet(v, g, c); }
    case Kicking(k) => if k.KickState? || k.MarkSlow? { TableKick(v, g, c); } else { TableInsert(v, g, c); }
    case Holding(h) =>
      if h.Release? || h.FreeByte? { TableRelease(v, g, c); }
      else if h.UnScan? {
        assert v.local[c].off < |v.slots| ==> SlotOk(v, g, Probe(v.base, |v.slots|, v.local[c].off));
        TableUnhash(v, g, c);
      }
      else { TableUnNode(v, g, c); }
  }

  lemma SlotKept(v: View, g: Ghost, c: nat, x: Choice, i: int)
    requires Inv(v, g) && CtxIn(v, c) && CtxOk(v, c)
    ensures var v' := Step(v, c, x); var g' := Recorded(v, g, c, v');
            Fits(v', g') && SlotOk(v', g', i)
  {
    hide TailOk, ByteOk, TableOk, VcpuOk, Stands, Queued, CtxOk, Around, Linked, Recorded, Known, First, At, Held,
      EnterStep, WaitStep, HeadStep, ClaimStep, KickStep, UnlockStep, Step;
    SceneHolds(v, g, c);
    StepOf(v, c, x);
    assert SlotOk(v, g, i);
    match v.local[c].pc
    case Link => SlotsWait(v, g, c, x);
    case Waiting(_) => SlotsWait(v, g, c, x);
    case LoadNext => SlotsWait(v, g, c, x);
    case ReadState => SlotsHead(v, g, c, x);
    case Heading(h) =>
      if h.Scan? { SlotScan(v, g, c, x, i); }
      else if h.PutNode? { SlotPut(v, g, c, x, i); }
      else { SlotsHead(v, g, c, x); }
    case Claiming(k) => if k.Unenter? { SlotClear(v, g, c, i); } else { SlotsClaim(v, g, c); }
    case Kicking(k) => if k.KickScan? || k.KickPut? { SlotInsert(v, g, c, i); } else { SlotsKick(v, g, c); }
    case Holding(h) => if h.UnClear? { SlotUnhash(v, g, c, i); } else { SlotsUnlock(v, g, c); }
    case Idle => SlotsEnter(v, g, c, x);
    case Fast => SlotsEnter(v, g, c, x);
    case StealRead(_) => SlotsEnter(v, g, c, x);
    case StealCas(_) => SlotsEnter(v, g, c, x);
    case SwapTail => SlotsEnter(v, g, c, x);
  }

  /** Every step of a context of the lock keeps the lock's invariant. */
  lemma StepKeepsInv(v: View, g: Ghost, c: nat, x: Choice)
    requires Inv(v, g) && CtxIn(v, c) && CtxOk(v, c)
    ensures Inv(Step(v, c, x), Recorded(v, g, c, Step(v, c, x)))
  {
    hide TailOk, ByteOk, TableOk, VcpuOk, Stands, SlotOk, Queued, CtxOk, Recorded, Held, Step;
    var v' := Step(v, c, x);
    var g' := Recorded(v, g, c, v');
    TailKept(v, g, c, x);
    TableKept(v, g, c, x);
    HeldKept(v, g, c, x, c);
    VcpuKept(v, g, c, x, c);
    forall y | CtxIn(v', y) ensures Known(v', g', y) {
      QueuedKept(v, g, c, x, y);
      HeldKept(v, g, c, x, y);
      VcpuKept(v, g, c, x, y);
    }
    forall i ensures Stands(v', g', i) { StandsKept(v, g, c, x, i); }
    forall i ensures SlotOk(v', g', i) { SlotKept(v, g, c, x, i); }
  }

  // ---------------------------------------------------------------------------
  // All locks
  // ---------------------------------------------------------------------------

  datatype System = System(word: seq<Word>, base: seq<nat>, slots: seq<Slot>,
                           node: seq<seq<Node>>, local: seq<seq<Local>>)

  predicate LockIn(s: System, l: int) { 0 <= l < |s.word| }

  ghost predicate Whole(s: System) {
    && |s.base| == |s.node| == |s.local| == |s.word|
    && (forall l :: LockIn(s, l) ==> |s.node[l]| == |s.local[l]| && s.base[l] < |s.slots|)
  }

  /** The system as the contexts of lock `l` see it. */
  function Look(s: System, l: nat): View
    requires l < |s.word| && |s.base| == |s.node| == |s.local| == |s.word|
  {
    View(l, s.base[l], s.word[l], s.slots, s.node[l], s.local[l])
  }

  function Update(s: System, l: nat, v: View): System
    requires l < |s.word| && |s.base| == |s.node| == |s.local| == |s.word|
  {
    s.(word := s.word[l := v.word], slots := v.slots, node := s.node[l := v.node], local := s.local[l := v.local])
  }

  ghost predicate Init(s: System) {
    && Whole(s)
    && (forall l :: LockIn(s, l) ==> s.word[l] == Zero)
    && (forall l, c :: LockIn(s, l) && 0 <= c < |s.local[l]| ==>
          && s.local[l][c] == Local(Idle, None, None, NotYet, 0, None, Zero)
          && s.node[l][c] == Node(None, false, Running))
    && (forall i :: 0 <= i < |s.slots| ==> s.slots[i] == Slot(None, None))
  }

  /** Some context of lock `l` performs one access. */
  ghost predicate NextAt(s: System, t: System, l: nat, c: nat, x: Choice) {
    && Whole(s) && l < |s.word| && c < |s.local[l]| && CtxOk(Look(s, l), c)
    && t == Update(s, l, Step(Look(s, l), c, x))
  }

  ghost predicate Next(s: System, t: System) { exists l: nat, c: nat, x :: NextAt(s, t, l, c, x) }

  /** An interleaving of any length of any number of contexts. */
  ghost predicate Run(run: seq<System>) {
    && |run| > 0 && Init(run[0])
    && (forall i :: 0 <= i < |run| - 1 ==> Next(run[i], run[i + 1]))
  }

  ghost predicate LockInv(s: System, g: seq<Ghost>, l: nat)
    requires Whole(s) && |g| == |s.word|
  {
    l < |s.word| ==> Inv(Look(s, l), g[l])
  }

  ghost predicate SystemInv(s: System, g: seq<Ghost>) {
    Whole(s) && |g| == |s.word| && forall l: nat :: LockInv(s, g, l)
  }

  /** A step leaves the slots of other locks alone. */
  lemma StepKeepsSlots(v: View, g: Ghost, c: nat, x: Choice, i: int)
    requires Inv(v, g) && CtxIn(v, c) && CtxOk(v, c) && 0 <= i < |v.slots|
    ensures var v' := Step(v, c, x);
            && SameSizes(v, v') && Shaped(v')
            && (v'.slots[i] == v.slots[i]
                || (v.slots[i].lock in {None, v.lock} && v'.slots[i].lock in {None, v.lock}))
  {
    hide Queued, VcpuOk, Stands, SlotOk, Probe;
    assert Known(v, g, c);
    assert First(g) == c || !(InQueue(v.local[c].pc) && UsesSlot(v.local[c].pc)) by { FirstIs(v, g, c); }
  }

  lemma FirstIs(v: View, g: Ghost, c: nat)
    requires Fits(v, g) && CtxIn(v, c) && Queued(v, g, c)
    ensures v.local[c].pc.Heading? || v.local[c].pc.Claiming? ==> First(g) == c
  {
  }

  /** What happens to the other slots does not matter. */
  lemma OtherSlots(v: View, v': View, g: Ghost)
    requires Inv(v, g) && v' == v.(slots := v'.slots) && |v'.slots| == |v.slots|
    requires forall i {:trigger v'.slots[i]} :: 0 <= i < |v.slots| ==>
               v'.slots[i] == v.slots[i] || (v.slots[i].lock != v.lock && v'.slots[i].lock != v.lock)
    ensures Inv(v', g)
  {
    hide Probe;
    forall c | CtxIn(v', c) ensures Known(v', g, c) { assert Known(v, g, c); }
    forall i ensures Stands(v', g, i) { assert Stands(v, g, i); }
    forall i ensures SlotOk(v', g, i) { assert SlotOk(v, g, i); }
  }

  function NoHistory(v: View): Ghost { Ghost([], 0, seq(|v.local|, _ => 0), None, None) }

  lemma FreshInv(v: View)
    requires Shaped(v) && v.word == Zero
    requires forall c :: CtxIn(v, c) ==>
               v.local[c] == Local(Idle, None, None, NotYet, 0, None, Zero) && v.node[c] == Node(None, false, Running)
    requires forall i :: 0 <= i < |v.slots| ==> v.slots[i] == Slot(None, None)
    ensures Inv(v, NoHistory(v))
  {
    var g := NoHistory(v);
    forall c | CtxIn(v, c) ensures Known(v, g, c) {}
    forall i ensures Stands(v, g, i) && SlotOk(v, g, i) {}
  }

  lemma InitInv(s: System) returns (g: seq<Ghost>)
    requires Init(s)
    ensures SystemInv(s, g)
  {
    g := seq(|s.word|, l requires 0 <= l < |s.word| && Whole(s) => NoHistory(Look(s, l)));
    forall l: nat ensures LockInv(s, g, l) {
      if l < |s.word| { FreshInv(Look(s, l)); }
    }
  }

  /** Every step of every context keeps the invariants of all locks. */
  lemma SystemStepKeepsInv(s: System, t: System, g: seq<Ghost>, l: nat, c: nat, x: Choice) returns (g': seq<Ghost>)
    requires SystemInv(s, g) && NextAt(s, t, l, c, x)
    ensures SystemInv(t, g')
  {
    hide Step, CtxOk, TableOk, Known, Stands, SlotOk, TailOk, ByteOk, Recorded;
    var v := Look(s, l);
    assert LockInv(s, g, l);
    var v' := Step(v, c, x);
    StepKeepsInv(v, g[l], c, x);
    g' := g[l := Recorded(v, g[l], c, v')];
    forall m: nat ensures SameSizes(v, v') && Shaped(v') && LockInv(t, g', m) {
      if 0 <= 0 < |v.slots| { StepKeepsSlots(v, g[l], c, x, 0); }
      if m < |s.word| && m != l {
        assert LockInv(s, g, m);
        forall i | 0 <= i < |s.slots|
          ensures t.slots[i] == s.slots[i] || (s.slots[i].lock != m && t.slots[i].lock != m)
        {
          StepKeepsSlots(v, g[l], c, x, i);
        }
        OtherSlots(Look(s, m), Look(t, m), g[m]);
      }
    }
  }

  lemma {:induction false} RunKeepsInv(run: seq<System>, i: nat) returns (g: seq<Ghost>)
    requires Run(run) && i < |run|
    ensures SystemInv(run[i], g)
  {
    hide SystemInv, NextAt, Init;
    if i == 0 {
      g := InitInv(run[0]);
    } else {
      var g0 := RunKeepsInv(run, i - 1);
      assert Next(run[i - 1], run[i - 1 + 1]);
      var l: nat, c: nat, x :| NextAt(run[i - 1], run[i], l, c, x);
      g := SystemStepKeepsInv(run[i - 1], run[i], g0, l, c, x);
    }
  }

  lemma RunView(run: seq<System>, i: nat, l: nat) returns (g: Ghost)
    requires Run(run) && i < |run| && l < |run[i].word|
    ensures Whole(run[i]) && Inv(Look(run[i], l), g)
  {
    hide Inv, Run;
    var all := RunKeepsInv(run, i);
    g := all[l];
    assert LockInv(run[i], all, l);
  }

  /** No context ever follows a pointer that is none: every context can always step. */
  lemma StepsAreDefined(run: seq<System>, i: nat, l: nat, c: nat)
    requires Run(run) && i < |run| && l < |run[i].word|
    ensures Whole(run[i]) && (c < |run[i].local[l]| ==> CtxOk(Look(run[i], l), c))
  {
    hide CtxOk, VcpuOk, TableOk, Run;
    var g := RunView(run, i, l);
    if c < |run[i].local[l]| { assert Known(Look(run[i], l), g, c); }
  }

  /** Two contexts that have got the same lock and not released it are one, whether they stole it,
      or got it as queue heads. */
  lemma MutualExclusion(run: seq<System>, i: nat, l: nat, a: nat, b: nat)
    requires Run(run) && i < |run| && l < |run[i].word| && Whole(run[i])
    requires a < |run[i].local[l]| && b < |run[i].local[l]|
    requires Owns(run[i].local[l][a].pc) && Owns(run[i].local[l][b].pc)
    ensures a == b
  {
    hide Queued, VcpuOk, TableOk, Run;
    var g := RunView(run, i, l);
    assert Known(Look(run[i], l), g, a) && Known(Look(run[i], l), g, b);
  }

  /** A blocked lock consumes a single entry. */
  lemma OneEntryPerLock(run: seq<System>, i: nat, l: nat, j: nat, k: nat)
    requires Run(run) && i < |run| && l < |run[i].word| && j < |run[i].slots| && k < |run[i].slots|
    requires run[i].slots[j].lock == run[i].slots[k].lock == l
    ensures j == k
  {
    hide Queued, VcpuOk, TableOk, Run;
    var g := RunView(run, i, l);
    assert SlotOk(Look(run[i], l), g, j) && SlotOk(Look(run[i], l), g, k);
  }

  /** Slot `j` is the only entry of lock `l`, and names a context that waits for the lock and will
      make no entry of its own any more. */
  ghost predicate Announced(s: System, l: nat, j: nat)
    requires Whole(s) && l < |s.word|
  {
    && (forall k :: 0 <= k < |s.slots| ==> (s.slots[k].lock == l <==> k == j))
    && j < |s.slots|
    && var f := s.slots[j].node;
       0 <= f < |s.local[l]| && InQueue(s.local[l][f].pc) && Settled(s.local[l][f], s.node[l][f])
  }

  /** Whenever an unlock sees _Q_SLOW_VAL, the table holds exactly one entry for the lock, and it
      names the queue head. */
  lemma UnlockSeesEntry(run: seq<System>, i: nat, l: nat, c: nat) returns (j: nat)
    requires Run(run) && i < |run| && l < |run[i].word| && Whole(run[i]) && c < |run[i].local[l]|
    requires run[i].local[l][c].pc == Holding(Release) && run[i].word[l].locked.Slow?
    ensures Announced(run[i], l, j)
  {
    hide CtxOk, VcpuOk, Stands, Probe, Run;
    var g := RunView(run, i, l);
    var v := Look(run[i], l);
    assert Known(v, g, c) && Known(v, g, First(g));
    j := g.entry;
    forall k | 0 <= k < |v.slots| ensures v.slots[k].lock == l <==> k == j { assert SlotOk(v, g, k); }
  }

  /** The probe sequence comes to every slot. */
  lemma ProbeCovers(base: nat, size: nat, i: int) returns (k: nat)
    requires base < size && 0 <= i < size
    ensures k < size && Probe(base, size, k) == i
  {
    k := if i >= base then i - base else i + size - base;
  }

  /** pv_unhash finds the entry: the probes still to come hold it, so the BUG() past the last slot is
      never reached. */
  lemma UnhashFindsEntry(run: seq<System>, i: nat, l: nat, c: nat) returns (k: nat)
    requires Run(run) && i < |run| && l < |run[i].word| && Whole(run[i]) && c < |run[i].local[l]|
    requires run[i].local[l][c].pc == Holding(UnScan)
    ensures run[i].local[l][c].off <= k < |run[i].slots|
    ensures Announced(run[i], l, Probe(run[i].base[l], |run[i].slots|, k))
  {
    hide CtxOk, VcpuOk, Stands, Probe, Run;
    var g := RunView(run, i, l);
    var v := Look(run[i], l);
    assert Known(v, g, c) && Known(v, g, First(g));
    k := ProbeCovers(v.base, |v.slots|, g.entry);
    forall k | 0 <= k < |v.slots| ensures v.slots[k].lock == l <==> k == g.entry { assert SlotOk(v, g, k); }
  }

  /** The node that the unlock kicks is the queue head's. */
  lemma KickedIsHead(run: seq<System>, i: nat, l: nat, c: nat)
    requires Run(run) && i < |run| && l < |run[i].word| && Whole(run[i]) && c < |run[i].local[l]|
    requires run[i].local[l][c].pc == Holding(UnClear)
    ensures var f := run[i].local[l][c].next;
            && 0 <= f < |run[i].local[l]| && InQueue(run[i].local[l][f].pc)
            && Settled(run[i].local[l][f], run[i].node[l][f])
  {
    hide CtxOk, VcpuOk, Stands, Probe, Run;
    var g := RunView(run, i, l);
    assert Known(Look(run[i], l), g, c) && Known(Look(run[i], l), g, First(g));
  }

  /** A queue head in pv_wait() on _Q_SLOW_VAL is not forgotten: its entry is in the table, or the
      holder that makes or has just taken it is on its way to the release. */
  lemma SleeperIsAnnounced(run: seq<System>, i: nat, l: nat, f: nat) returns (h: nat)
    requires Run(run) && i < |run| && l < |run[i].word| && Whole(run[i]) && f < |run[i].local[l]|
    requires run[i].local[l][f].pc == Heading(Wait) && run[i].word[l].locked.Slow?
    ensures h < |run[i].local[l]| && Owns(run[i].local[l][h].pc)
    ensures var pc := run[i].local[l][h].pc;
            || pc == Kicking(KickScan) || pc == Kicking(KickPut) || pc == Holding(FreeByte)
            || exists j :: 0 <= j < |run[i].slots| && run[i].slots[j] == Slot(l, f)
  {
    hide CtxOk, VcpuOk, Probe, Run;
    var g := RunView(run, i, l);
    var v := Look(run[i], l);
    h := g.holder;
    assert Known(v, g, f) && Known(v, g, h);
    FirstIs(v, g, f);
    FirstIs(v, g, h);
    assert Published(v, g) ==> v.slots[g.entry] == Slot(l, f);
  }

  /** _Q_SLOW_VAL goes only as the queue head that found the lock free takes it back, or with the
      release, when the lock has no entry left: neither set_locked nor the last waiter's compare-and-
      exchange ever overwrites it. */
  lemma SlowIsKept(run: seq<System>, i: nat, t: System, l: nat, c: nat, x: Choice)
    requires Run(run) && i < |run| && NextAt(run[i], t, l, c, x)
    requires run[i].word[l].locked.Slow? && !t.word[l].locked.Slow?
    ensures || run[i].local[l][c].pc == Claiming(MarkTaken)
            || (run[i].local[l][c].pc == Holding(FreeByte)
                && forall j :: 0 <= j < |run[i].slots| ==> run[i].slots[j].lock != l)
  {
    hide CtxOk, VcpuOk, Stands, Probe, Run;
    var g := RunView(run, i, l);
    var v := Look(run[i], l);
    assert Known(v, g, c);
    FirstIs(v, g, c);
    forall j | 0 <= j < |v.slots| && v.slots[j].lock == l ensures g.entry == j { assert SlotOk(v, g, j); }
  }

  lemma WritesReachQueue(v: View, g: Ghost, c: nat, x: Choice, y: int)
    requires Fits(v, g) && CtxIn(v, c) && Queued(v, g, c) && CtxIn(v, y) && y != c
    requires Step(v, c, x).node[y] != v.node[y]
    requires Stands(v, g, g.place[c] - 1) && Stands(v, g, g.place[c] + 1) && Stands(v, g, g.gone)
    requires v.local[c].pc.Kicking? ==> v.local[c].next == First(g)
    ensures InQueue(v.local[y].pc)
  {
  }

  /** A context writes to the node of another only while that one is queued for the same lock, so a
      node can be used again, for any lock, as soon as its context has left the queue. */
  lemma WritesReachWaiters(run: seq<System>, i: nat, t: System, l: nat, c: nat, x: Choice, y: nat)
    requires Run(run) && i < |run| && NextAt(run[i], t, l, c, x)
    requires y < |run[i].local[l]| && y != c && t.node[l][y] != run[i].node[l][y]
    ensures InQueue(run[i].local[l][y].pc)
  {
    hide Step, Queued, Stands, VcpuOk, Run, CtxOk;
    var g := RunView(run, i, l);
    var v := Look(run[i], l);
    assert Known(v, g, c);
    assert Stands(v, g, g.place[c] - 1) && Stands(v, g, g.place[c] + 1) && Stands(v, g, g.gone);
    WritesReachQueue(v, g, c, x, y);
  }

  // ---------------------------------------------------------------------------
  // Room in the table
  // ---------------------------------------------------------------------------

  /** A slot is free or holds a lock of the system. */
  ghost predicate Named(s: System, j: int) {
    0 <= j < |s.slots| ==> s.slots[j].lock == None || LockIn(s, s.slots[j].lock)
  }

  lemma {:induction false} SlotsAreNamed(run: seq<System>, i: nat, j: nat)
    requires Run(run) && i < |run|
    ensures Named(run[i], j)
  {
    hide SystemInv, Inv, Init, Step, CtxOk;
    if i == 0 {
      InitNames(run[0], j);
    } else {
      SlotsAreNamed(run, i - 1, j);
      var g := RunKeepsInv(run, i - 1);
      assert Next(run[i - 1], run[i - 1 + 1]);
      var l: nat, c: nat, x :| NextAt(run[i - 1], run[i], l, c, x);
      var v := Look(run[i - 1], l);
      ViewInv(run[i - 1], g, l);
      if j < |v.slots| {
        StepKeepsSlots(v, g[l], c, x, j);
      } else {
        StepKeepsSlots(v, g[l], c, x, 0);
      }
    }
  }

  lemma InitNames(s: System, j: nat)
    requires Init(s)
    ensures Named(s, j)
  {
  }

  lemma ViewInv(s: System, g: seq<Ghost>, l: nat)
    requires SystemInv(s, g) && l < |s.word|
    ensures Whole(s) && l < |g| && Inv(Look(s, l), g[l])
  {
    assert LockInv(s, g, l);
  }

  /** A context that looks for a slot has no entry yet, for its lock. */
  lemma ScannerHasNone(v: View, g: Ghost, c: nat)
    requires Inv(v, g) && CtxIn(v, c) && Scans(v.local[c].pc)
    ensures forall j :: 0 <= j < |v.slots| ==> v.slots[j].lock != v.lock
  {
    hide CtxOk, Stands, Probe;
    assert Known(v, g, c);
    FirstIs(v, g, c);
    assert CtxIn(v, g.holder) ==> Known(v, g, g.holder);
    if CtxIn(v, g.holder) { FirstIs(v, g, g.holder); }
    assert g.entry == None;
    forall j | 0 <= j < |v.slots| ensures v.slots[j].lock != v.lock { assert SlotOk(v, g, j); }
  }

  /** A lock with an entry has a context at work. */
  lemma EntryHasContext(v: View, g: Ghost, j: nat) returns (c: nat)
    requires Inv(v, g) && j < |v.slots| && v.slots[j].lock == v.lock && v.lock != None
    ensures CtxIn(v, c) && !v.local[c].pc.Idle?
  {
    hide CtxOk, Stands, Probe, VcpuOk;
    assert SlotOk(v, g, j);
    if v.word.locked.Slow? {
      c := g.holder;
    } else {
      c := First(g);
    }
    assert Known(v, g, c);
  }

  ghost predicate IsActive(s: System, l: int, c: int) {
    LockIn(s, l) && |s.local| == |s.word| && 0 <= c < |s.local[l]| && !s.local[l][c].pc.Idle?
  }

  /** The contexts that are doing something with their lock. */
  ghost function Active(s: System): set<(int, int)>
    requires |s.local| == |s.word|
  {
    set l, c | 0 <= l < |s.local| && 0 <= c < |s.local[l]| && IsActive(s, l, c) :: (l, c)
  }

  /** As many active contexts as full slots, of the locks that the slots hold. */
  ghost predicate Owners(s: System, n: nat, w: set<(int, int)>)
    requires |s.local| == |s.word| && n <= |s.slots|
  {
    && w <= Active(s) && |w| == n
    && forall p :: p in w ==> exists j :: 0 <= j < n && s.slots[j].lock == p.0
  }

  lemma {:induction false} FullSlotsHaveOwners(run: seq<System>, i: nat, n: nat) returns (w: set<(int, int)>)
    requires Run(run) && i < |run| && n <= |run[i].slots|
    requires forall j :: 0 <= j < n ==> run[i].slots[j].lock != None
    ensures Whole(run[i]) && Owners(run[i], n, w)
  {
    hide Inv, Run, Init, IsActive;
    var g := RunKeepsInv(run, i);
    if n == 0 {
      w := {};
    } else {
      var w0 := FullSlotsHaveOwners(run, i, n - 1);
      SlotsAreNamed(run, i, n - 1);
      var l := run[i].slots[n - 1].lock;
      ViewInv(run[i], g, l);
      var c := EntryHasContext(Look(run[i], l), g[l], n - 1);
      assert IsActive(run[i], l, c) by { ActiveAt(run[i], l, c); }
      assert (l, c) in Active(run[i]);
      if (l, c) in w0 {
        var j :| 0 <= j < n - 1 && run[i].slots[j].lock == l;
        OneEntryPerLock(run, i, l, j, n - 1);
      }
      w := w0 + {(l, c)};
      forall p | p in w ensures exists j :: 0 <= j < n && run[i].slots[j].lock == p.0 {
        if p in w0 {
          var j :| 0 <= j < n - 1 && run[i].slots[j].lock == p.0;
        }
      }
    }
  }

  lemma ActiveAt(s: System, l: nat, c: nat)
    requires Whole(s) && l < |s.word| && c < |s.local[l]| && !s.local[l][c].pc.Idle?
    ensures IsActive(s, l, c)
  {
  }

  /** Whenever a context looks for a slot, some slot is free, if there are as many slots as active
      contexts. */
  lemma SomeSlotIsFree(run: seq<System>, i: nat, l: nat, c: nat) returns (j: nat)
    requires Run(run) && i < |run| && Whole(run[i]) && l < |run[i].word| && c < |run[i].local[l]|
    requires Scans(run[i].local[l][c].pc) && |Active(run[i])| <= |run[i].slots|
    ensures j < |run[i].slots| && run[i].slots[j].lock == None
  {
    hide Inv, Run, IsActive;
    var s := run[i];
    var g := RunView(run, i, l);
    ScannerHasNone(Look(s, l), g, c);
    if forall k :: 0 <= k < |s.slots| ==> s.slots[k].lock != None {
      var w := FullSlotsHaveOwners(run, i, |s.slots|);
      ActiveAt(s, l, c);
      assert (l, c) in Active(s) && (l, c) !in w;
      Smaller(w, Active(s), (l, c));
    }
    j :| 0 <= j < |s.slots| && s.slots[j].lock == None;
  }

  lemma Smaller(a: set<(int, int)>, b: set<(int, int)>, p: (int, int))
    requires a <= b && p in b && p !in a
    ensures |a| < |b|
  {
    assert b == a + (b - a);
  }

  /** A step changes the locals of the stepping context only. */
  lemma OwnLocal(v: View, c: nat, x: Choice, y: nat)
    requires Shaped(v) && CtxIn(v, c) && CtxOk(v, c) && CtxIn(v, y) && y != c
    ensures |Step(v, c, x).local| == |v.local| && Step(v, c, x).local[y] == v.local[y]
  {
  }

  /** Context `c` of lock `l` is looking for a slot from state `i` to state `k` of the run. */
  ghost predicate Looking(run: seq<System>, i: nat, k: nat, l: nat, c: nat)
    requires i <= k < |run|
  {
    forall n :: i <= n <= k ==> LooksAt(run[n], l, c)
  }

  ghost predicate LooksAt(s: System, l: nat, c: nat) {
    Whole(s) && l < |s.word| && c < |s.local[l]| && Scans(s.local[l][c].pc)
  }

  /** The `m`-th slot of the probe sequence of lock `l` is free. */
  ghost predicate FreeAt(s: System, l: nat, m: nat) {
    Whole(s) && l < |s.word| && m < |s.slots| && s.slots[Probe(s.base[l], |s.slots|, m)].lock == None
  }

  /** A context that still looks after a step has not passed a free slot. */
  lemma NotPassed(s: System, t: System, l: nat, c: nat, m: nat, l': nat, c': nat, x: Choice)
    requires NextAt(s, t, l', c', x) && LooksAt(s, l, c) && LooksAt(t, l, c) && FreeAt(s, l, m)
    requires s.local[l][c].off <= m
    ensures t.local[l][c].off <= m
  {
    if l' == l && c' != c {
      OwnLocal(Look(s, l), c', x, c);
    }
  }

  /** A probe misses a slot only if it is full at some moment: as long as some slot stays free, the
      context does not get past it, let alone past the last one. */
  lemma {:induction false} FreeIsNotPassed(run: seq<System>, i: nat, k: nat, l: nat, c: nat, m: nat)
    requires Run(run) && i <= k < |run| && Looking(run, i, k, l, c) && run[i].local[l][c].off == 0
    requires forall n :: i <= n <= k ==> FreeAt(run[n], l, m)
    ensures run[k].local[l][c].off <= m < |run[k].slots|
    decreases k
  {
    hide Run, NextAt, Step;
    assert LooksAt(run[k], l, c) && FreeAt(run[k], l, m);
    if k > i {
      FreeIsNotPassed(run, i, k - 1, l, c, m);
      assert LooksAt(run[k - 1], l, c) && FreeAt(run[k - 1], l, m);
      var l', c', x := StepTaken(run, k - 1);
      NotPassed(run[k - 1], run[k], l, c, m, l', c', x);
    }
  }

  lemma StepTaken(run: seq<System>, i: nat) returns (l: nat, c: nat, x: Choice)
    requires Run(run) && i < |run| - 1
    ensures NextAt(run[i], run[i + 1], l, c, x)
  {
    hide NextAt, Init;
    assert Next(run[i], run[i + 1]);
    l, c, x :| NextAt(run[i], run[i + 1], l, c, x);
  }
}
