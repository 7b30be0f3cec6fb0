/** The native queued spinlock of tests/locking/qspinlock.c and qspinlock.h: a lock word holding a
    locked byte, a pending byte and a queue tail, and an MCS queue of per-CPU nodes.

    One transition is one access to shared memory. A thread is an execution context of a CPU (task,
    softirq, hardirq, NMI) with a nesting level; a CPU runs its most deeply nested active context.
    There are any number of CPUs, threads and locks, and each CPU has MaxNodes queue nodes for all
    of them.
 */
module QSpinlock {

  const None := -1

  /** _Q_MAX_NODES */
  const MaxNodes := 4

  /** The lock word; `tail` is None or the number of a queue node. */
  datatype Word = Word(tail: int, pending: bool, locked: bool)

  const Zero := Word(None, false, false)

  datatype Node = Node(next: int, locked: bool)

  // Program points, grouped by what a thread holds there.

  /** No node, no claim on the word. */
  datatype TryPc = FastCas | SpinOnPending | TestVal | FetchPending | IncCount

  /** Set the pending bit when it was clear. */
  datatype PendPc = ClearPending | AwaitUnlocked | TakePending

  /** Owns a node slot, not queued. */
  datatype SlotPc = NoNodeRead | NoNodeCas | InitLocked | InitNext | TryRead | TryCas | SwapTail

  /** Queued, with a predecessor still to hear of us or to hand over. */
  datatype WaitPc = LinkPrev | AwaitHead

  /** At the head of the queue, without the lock. */
  datatype HeadPc = ReadNext | AwaitClear | CasTail | SetLocked

  /** At the head of the queue, with the lock. */
  datatype OwnPc = AwaitNext | Handover

  datatype Pc =
    | Idle
    | Trying(try: TryPc)
    | Pending(pend: PendPc)
    | Slot(slot: SlotPc)
    | Waiting(wait: WaitPc)
    | Head(head: HeadPc)
    | Owner(own: OwnPc)
    | DecCount

  predicate UsesNode(pc: Pc) {
    || (pc.Slot? && !pc.slot.NoNodeRead? && !pc.slot.NoNodeCas?)
    || pc.Waiting? || pc.Head? || pc.Owner?
  }

  predicate HasSlot(pc: Pc) { pc.Slot? || pc.Waiting? || pc.Head? || pc.Owner? || pc.DecCount? }

  predicate Queued(pc: Pc) { pc.Waiting? || pc.Head? || pc.Owner? }

  /** `val`, `idx`, `node`, `prev` and `next` are the locals of the slow path; `holds` is the set of locks
      the thread has acquired and not released. */
  datatype Thread = Thread(cpu: nat, level: nat, holds: set<nat>,
                           pc: Pc, lk: nat, val: Word, idx: int, node: int, prev: int, next: int)

  datatype State = State(word: seq<Word>, node: seq<Node>, count: seq<int>, thread: seq<Thread>)

  datatype Choice = Lock(l: nat) | Unlock(l: nat) | Proceed | GiveUp

  /** grab_mcs_node: the number of the node at index `idx` of a CPU's qnodes[]. */
  function GrabNode(cpu: nat, idx: int): int { cpu * MaxNodes + idx }

  ghost predicate ThreadOk(s: State, t: nat)
    requires t < |s.thread|
  {
    var me := s.thread[t];
    && me.cpu < |s.count| && GrabNode(me.cpu, MaxNodes) <= |s.node|
    && (!me.pc.Idle? ==> me.lk < |s.word|)
    && (UsesNode(me.pc) ==> 0 <= me.node < |s.node|)
    && (me.pc == Waiting(LinkPrev) ==> 0 <= me.prev < |s.node|)
    && (me.pc == Owner(Handover) ==> 0 <= me.next < |s.node|)
  }

  /** Every pointer a thread is about to follow is one. */
  ghost predicate WellFormed(s: State) {
    forall t :: 0 <= t < |s.thread| ==> ThreadOk(s, t)
  }

  ghost predicate Init(s: State) {
    && (forall l :: 0 <= l < |s.word| ==> s.word[l] == Zero)
    && (forall c :: 0 <= c < |s.count| ==> s.count[c] == 0)
    && |s.node| == |s.count| * MaxNodes
    && (forall n :: 0 <= n < |s.node| ==> s.node[n] == Node(None, false))
    && (forall t :: 0 <= t < |s.thread| ==>
          s.thread[t].pc.Idle? && s.thread[t].holds == {} && s.thread[t].cpu < |s.count|)
  }

  // ---------------------------------------------------------------------------
  // Transitions
  // ---------------------------------------------------------------------------

  predicate SameSystem(s: State, s': State) {
    && |s'.word| == |s.word| && |s'.node| == |s.node|
    && |s'.count| == |s.count| && |s'.thread| == |s.thread|
  }

  /** Only the most deeply nested active context of a CPU runs. */
  ghost predicate MayRun(s: State, t: nat)
    requires t < |s.thread|
  {
    forall u :: 0 <= u < |s.thread| && u != t && s.thread[u].cpu == s.thread[t].cpu && !s.thread[u].pc.Idle? ==>
      s.thread[u].level < s.thread[t].level
  }

  function SetThread(s: State, t: nat, th: Thread): State
    requires t < |s.thread|
  {
    s.(thread := s.thread[t := th])
  }

  function Goto(s: State, t: nat, pc: Pc): State
    requires t < |s.thread|
  {
    SetThread(s, t, s.thread[t].(pc := pc))
  }

  /** Thread `t` writes `w` to its lock word, and with that acquires the lock. */
  function Acquire(s: State, t: nat, w: Word, pc: Pc): State
    requires t < |s.thread| && s.thread[t].lk < |s.word|
  {
    var me := s.thread[t];
    SetThread(s, t, me.(pc := pc, holds := me.holds + {me.lk})).(word := s.word[me.lk := w])
  }

  /** queued_spin_lock's fast path, and the slow path up to the queue. */
  function TryStep(s: State, t: nat, choice: Choice): (s': State)
    requires WellFormed(s) && t < |s.thread| && s.thread[t].pc.Trying?
    ensures SameSystem(s, s')
  {
    assert ThreadOk(s, t);
    var me := s.thread[t];
    var w := s.word[me.lk];
    match me.pc.try
    case FastCas =>
      if w == Zero then Acquire(s, t, Zero.(locked := true), Idle)
      else SetThread(s, t, me.(val := w, pc := Trying(if w == Zero.(pending := true) then SpinOnPending else TestVal)))
    case SpinOnPending =>
      SetThread(s, t, me.(val := w, pc :=
        Trying(if w != Zero.(pending := true) || choice == GiveUp then TestVal else SpinOnPending)))
    case TestVal =>
      Goto(s, t, Trying(if me.val.pending || me.val.tail != None then IncCount else FetchPending))
    case FetchPending =>
      SetThread(s, t, me.(val := w, pc :=
        if w.pending then Trying(IncCount)
        else Pending(if w.tail != None then ClearPending else if w.locked then AwaitUnlocked else TakePending)))
      .(word := s.word[me.lk := w.(pending := true)])
    case IncCount =>
      SetThread(s, t, me.(idx := s.count[me.cpu], node := GrabNode(me.cpu, s.count[me.cpu]),
                          pc := Slot(if s.count[me.cpu] >= MaxNodes then NoNodeRead else InitLocked)))
      .(count := s.count[me.cpu := s.count[me.cpu] + 1])
  }

  /** The thread that set the pending bit undoes it, or waits and takes the lock with it. */
  function PendStep(s: State, t: nat): (s': State)
    requires WellFormed(s) && t < |s.thread| && s.thread[t].pc.Pending?
    ensures SameSystem(s, s')
  {
    assert ThreadOk(s, t);
    var me := s.thread[t];
    var w := s.word[me.lk];
    match me.pc.pend
    case ClearPending => Goto(s.(word := s.word[me.lk := w.(pending := false)]), t, Trying(IncCount))
    case AwaitUnlocked => if w.locked then s else Goto(s, t, Pending(TakePending))
    case TakePending => Acquire(s, t, w.(pending := false, locked := true), Idle)
  }

  /** From the allocation of a node to the swap of the tail. */
  function SlotStep(s: State, t: nat): (s': State)
    requires WellFormed(s) && t < |s.thread| && s.thread[t].pc.Slot?
    ensures SameSystem(s, s')
  {
    assert ThreadOk(s, t);
    var me := s.thread[t];
    var w := s.word[me.lk];
    match me.pc.slot
    case NoNodeRead => if w == Zero then Goto(s, t, Slot(NoNodeCas)) else s
    case NoNodeCas =>
      if w == Zero then Acquire(s, t, Zero.(locked := true), DecCount) else Goto(s, t, Slot(NoNodeRead))
    case InitLocked =>
      Goto(s.(node := s.node[me.node := s.node[me.node].(locked := false)]), t, Slot(InitNext))
    case InitNext =>
      Goto(s.(node := s.node[me.node := s.node[me.node].(next := None)]), t, Slot(TryRead))
    case TryRead => Goto(s, t, Slot(if w == Zero then TryCas else SwapTail))
    case TryCas =>
      if w == Zero then Acquire(s, t, Zero.(locked := true), DecCount) else Goto(s, t, Slot(SwapTail))
    case SwapTail =>
      SetThread(s, t, me.(prev := w.tail, next := None,
                          pc := if w.tail != None then Waiting(LinkPrev) else Head(AwaitClear)))
      .(word := s.word[me.lk := w.(tail := me.node)])
  }

  /** In the queue: link, wait to become head, wait for the word to clear, claim, hand over. */
  function QueueStep(s: State, t: nat): (s': State)
    requires WellFormed(s) && t < |s.thread| && Queued(s.thread[t].pc)
    ensures SameSystem(s, s')
  {
    assert ThreadOk(s, t);
    var me := s.thread[t];
    var w, nd := s.word[me.lk], s.node[me.node];
    match me.pc
    case Waiting(LinkPrev) =>
      Goto(s.(node := s.node[me.prev := s.node[me.prev].(next := me.node)]), t, Waiting(AwaitHead))
    case Waiting(AwaitHead) => if nd.locked then Goto(s, t, Head(ReadNext)) else s
    case Head(ReadNext) => SetThread(s, t, me.(next := nd.next, pc := Head(AwaitClear)))
    case Head(AwaitClear) =>
      if w.locked || w.pending then s
      else SetThread(s, t, me.(val := w, pc := Head(if w.tail == me.node then CasTail else SetLocked)))
    case Head(CasTail) =>
      if w == me.val then Acquire(s, t, Zero.(locked := true), DecCount) else Goto(s, t, Head(SetLocked))
    case Head(SetLocked) =>
      Acquire(s, t, w.(locked := true), Owner(if me.next == None then AwaitNext else Handover))
    case Owner(AwaitNext) => if nd.next == None then s else SetThread(s, t, me.(next := nd.next, pc := Owner(Handover)))
    case Owner(Handover) => Goto(s.(node := s.node[me.next := s.node[me.next].(locked := true)]), t, DecCount)
    case _ => s
  }

  function Step(s: State, t: nat, choice: Choice): (s': State)
    requires WellFormed(s) && t < |s.thread|
    ensures SameSystem(s, s')
  {
    assert ThreadOk(s, t);
    var me := s.thread[t];
    match me.pc
    case Idle =>
      if choice.Lock? && choice.l < |s.word| then SetThread(s, t, me.(pc := Trying(FastCas), lk := choice.l))
      else if choice.Unlock? && choice.l < |s.word| && choice.l in me.holds then
        SetThread(s, t, me.(holds := me.holds - {choice.l}))
          .(word := s.word[choice.l := s.word[choice.l].(locked := false)])
      else s
    case Trying(_) => TryStep(s, t, choice)
    case Pending(_) => PendStep(s, t)
    case Slot(_) => SlotStep(s, t)
    case DecCount => Goto(s.(count := s.count[me.cpu := s.count[me.cpu] - 1]), t, Idle)
    case _ => QueueStep(s, t)
  }

  // ---------------------------------------------------------------------------
  // The invariant: node slots, queues, and claims on the lock word
  // ---------------------------------------------------------------------------

  /** `stack` gives, per CPU, its contexts with a node slot, outermost first. */
  ghost predicate StackOk(s: State, stack: seq<seq<nat>>, c: nat)
    requires |stack| == |s.count| && c < |s.count|
  {
    var st := stack[c];
    && s.count[c] == |st|
    && (forall i :: 0 <= i < |st| ==>
          st[i] < |s.thread| && HasSlot(s.thread[st[i]].pc) && s.thread[st[i]].cpu == c && s.thread[st[i]].idx == i)
    && (forall i, j :: 0 <= i < j < |st| ==>
          st[i] < |s.thread| && st[j] < |s.thread| && s.thread[st[i]].level < s.thread[st[j]].level)
  }

  ghost predicate SlotOk(s: State, stack: seq<seq<nat>>, t: nat)
    requires |stack| == |s.count| && t < |s.thread| && ThreadOk(s, t)
  {
    var me := s.thread[t];
    && (HasSlot(me.pc) ==> 0 <= me.idx < |stack[me.cpu]| && stack[me.cpu][me.idx] == t)
    && (UsesNode(me.pc) ==> 0 <= me.idx < MaxNodes && me.node == GrabNode(me.cpu, me.idx))
  }

  /** The slots of a CPU are used as a stack by its nested contexts, so no two threads share a node. */
  ghost predicate Slots(s: State, stack: seq<seq<nat>>) {
    && WellFormed(s) && |stack| == |s.count|
    && (forall c :: 0 <= c < |s.count| ==> StackOk(s, stack, c))
    && (forall t :: 0 <= t < |s.thread| ==> ThreadOk(s, t) && SlotOk(s, stack, t))
  }

  /** Per lock the first and last thread in its queue; per thread its neighbours. */
  datatype Queue = Queue(first: seq<int>, last: seq<int>, pred: seq<int>, succ: seq<int>)

  ghost predicate Sized(s: State, q: Queue) {
    |q.first| == |q.last| == |s.word| && |q.pred| == |q.succ| == |s.thread|
  }

  ghost predicate End(s: State, l: nat, t: int) {
    t == None || (0 <= t < |s.thread| && Queued(s.thread[t].pc) && s.thread[t].lk == l)
  }

  ghost predicate TailOk(s: State, q: Queue, l: nat)
    requires Sized(s, q) && l < |s.word|
  {
    && (q.first[l] == None <==> q.last[l] == None)
    && End(s, l, q.first[l]) && End(s, l, q.last[l])
    && (q.last[l] == None <==> s.word[l].tail == None)
    && (q.last[l] != None ==> s.word[l].tail == s.thread[q.last[l]].node)
  }

  ghost predicate Neighbours(s: State, q: Queue, a: int, b: int)
    requires Sized(s, q)
  {
    && 0 <= a < |s.thread| && 0 <= b < |s.thread|
    && Queued(s.thread[a].pc) && Queued(s.thread[b].pc)
    && s.thread[a].lk == s.thread[b].lk
    && q.succ[a] == b && q.pred[b] == a
  }

  ghost predicate PlaceOk(s: State, q: Queue, t: nat)
    requires Sized(s, q) && t < |s.thread| && ThreadOk(s, t)
  {
    var me := s.thread[t];
    Queued(me.pc) ==>
      && (q.pred[t] == None <==> q.first[me.lk] == t)
      && (q.succ[t] == None <==> q.last[me.lk] == t)
      && (q.pred[t] != None ==> Neighbours(s, q, q.pred[t], t))
      && (q.succ[t] != None ==> Neighbours(s, q, t, q.succ[t]))
  }

  /** A next pointer of `t` is null or leads to its successor, which has linked itself. */
  ghost predicate ToSuccessor(s: State, q: Queue, t: nat, p: int)
    requires Sized(s, q) && t < |s.thread|
  {
    var n := q.succ[t];
    p == None || (0 <= n < |s.thread| && p == s.thread[n].node && s.thread[n].pc == Waiting(AwaitHead))
  }

  /** What a thread's node contains. */
  ghost predicate NodeOk(s: State, q: Queue, t: nat)
    requires Sized(s, q) && t < |s.thread| && ThreadOk(s, t)
  {
    var me := s.thread[t];
    && (me.pc == Slot(InitNext) ==> !s.node[me.node].locked)
    && (me.pc == Slot(TryRead) || me.pc == Slot(TryCas) || me.pc == Slot(SwapTail)
        ==> s.node[me.node] == Node(None, false))
    && (Queued(me.pc) ==>
          && ToSuccessor(s, q, t, s.node[me.node].next) && ToSuccessor(s, q, t, me.next)
          && (me.pc.Waiting? ==> (q.first[me.lk] == t <==> s.node[me.node].locked))
          && (me.pc.Head? || me.pc.Owner? ==> q.first[me.lk] == t))
    && (me.pc == Waiting(LinkPrev) ==>
          && !s.node[me.node].locked && 0 <= q.pred[t] < |s.thread|
          && me.prev == s.thread[q.pred[t]].node && s.node[me.prev].next == None)
  }

  ghost predicate QueueOk(s: State, q: Queue, t: nat)
    requires Sized(s, q) && t < |s.thread|
  {
    ThreadOk(s, t) && PlaceOk(s, q, t) && NodeOk(s, q, t)
  }

  ghost predicate Queues(s: State, q: Queue) {
    && Sized(s, q)
    && (forall l :: 0 <= l < |s.word| ==> TailOk(s, q, l))
    && (forall t :: 0 <= t < |s.thread| ==> QueueOk(s, q, t))
  }

  /** Per lock its holder, and the thread that set its pending bit. */
  datatype Claim = Claim(holder: seq<int>, pender: seq<int>)

  ghost predicate WordOk(s: State, k: Claim, l: nat)
    requires |k.holder| == |k.pender| == |s.word| && l < |s.word|
  {
    var h, p := k.holder[l], k.pender[l];
    && (s.word[l].locked <==> h != None)
    && (h != None ==> 0 <= h < |s.thread| && l in s.thread[h].holds)
    && (s.word[l].pending <==> p != None)
    && (p != None ==> 0 <= p < |s.thread| && s.thread[p].pc.Pending? && s.thread[p].lk == l)
  }

  ghost predicate ClaimOk(s: State, k: Claim, t: nat)
    requires |k.holder| == |k.pender| == |s.word| && t < |s.thread| && ThreadOk(s, t)
  {
    var me := s.thread[t];
    && (forall l :: l in me.holds ==> l < |s.word| && k.holder[l] == t)
    && (me.pc.Pending? ==> k.pender[me.lk] == t)
    && (me.pc == Pending(TakePending) ==> !s.word[me.lk].locked)
    && (me.pc.Owner? ==> me.lk in me.holds)
    // a head that has seen the word clear finds at most a pending bit that will be undone
    && (me.pc == Head(CasTail) || me.pc == Head(SetLocked) ==>
          && !s.word[me.lk].locked && !me.val.locked && !me.val.pending
          && (k.pender[me.lk] != None ==>
                0 <= k.pender[me.lk] < |s.thread| && s.thread[k.pender[me.lk]].pc == Pending(ClearPending)))
    && (me.pc == Head(CasTail) ==> me.val.tail == me.node)
  }

  ghost predicate Claims(s: State, k: Claim) {
    && |k.holder| == |k.pender| == |s.word|
    && (forall l :: 0 <= l < |s.word| ==> WordOk(s, k, l))
    && (forall t :: 0 <= t < |s.thread| ==> ThreadOk(s, t) && ClaimOk(s, k, t))
  }

  // ---------------------------------------------------------------------------
  // Node slots
  // ---------------------------------------------------------------------------

  /** Only thread `t` changes. */
  predicate OnlyThread(s: State, s': State, t: nat) {
    && SameSystem(s, s') && t < |s.thread|
    && s'.thread == s.thread[t := s'.thread[t]]
    && s'.thread[t].cpu == s.thread[t].cpu && s'.thread[t].level == s.thread[t].level
  }

  /** Two threads never use the same queue node. */
  lemma NodesDiffer(s: State, stack: seq<seq<nat>>, a: nat, b: nat)
    requires Slots(s, stack) && a < |s.thread| && b < |s.thread| && a != b
    requires UsesNode(s.thread[a].pc) && UsesNode(s.thread[b].pc)
    ensures s.thread[a].node != s.thread[b].node
  {
    assert ThreadOk(s, a) && SlotOk(s, stack, a) && ThreadOk(s, b) && SlotOk(s, stack, b);
  }

  lemma SlotsSteady(s: State, stack: seq<seq<nat>>, s': State, t: nat)
    requires Slots(s, stack) && OnlyThread(s, s', t) && WellFormed(s') && s'.count == s.count
    requires
      var me, me' := s.thread[t], s'.thread[t];
      && (HasSlot(me.pc) <==> HasSlot(me'.pc)) && (UsesNode(me'.pc) ==> UsesNode(me.pc))
      && (HasSlot(me.pc) ==> me'.idx == me.idx && me'.node == me.node)
    ensures Slots(s', stack)
  {
    forall c: nat | c < |s'.count| ensures StackOk(s', stack, c) { assert StackOk(s, stack, c); }
    forall x: nat | x < |s'.thread| ensures ThreadOk(s', x) && SlotOk(s', stack, x) {
      assert ThreadOk(s', x) && ThreadOk(s, x) && SlotOk(s, stack, x);
    }
  }

  /** A context that may run and has no slot yet is nested deeper than all contexts with a slot. */
  lemma SlotsPush(s: State, stack: seq<seq<nat>>, t: nat)
    requires Slots(s, stack) && t < |s.thread| && s.thread[t].pc == Trying(IncCount) && MayRun(s, t)
    requires ThreadOk(s, t)
    ensures WellFormed(TryStep(s, t, Proceed))
    ensures Slots(TryStep(s, t, Proceed), stack[s.thread[t].cpu := stack[s.thread[t].cpu] + [t]])
  {
    var s', me := TryStep(s, t, Proceed), s.thread[t];
    var stack' := stack[me.cpu := stack[me.cpu] + [t]];
    assert StackOk(s, stack, me.cpu);
    forall x: nat | x < |s'.thread| ensures ThreadOk(s', x) && SlotOk(s', stack', x) {
      assert ThreadOk(s, x) && SlotOk(s, stack, x);
    }
    forall c: nat | c < |s'.count| ensures StackOk(s', stack', c) { SlotsPushStack(s, stack, t, c); }
  }

  lemma SlotsPushStack(s: State, stack: seq<seq<nat>>, t: nat, c: nat)
    requires Slots(s, stack) && t < |s.thread| && s.thread[t].pc == Trying(IncCount) && MayRun(s, t)
    requires ThreadOk(s, t) && c < |s.count|
    ensures StackOk(TryStep(s, t, Proceed), stack[s.thread[t].cpu := stack[s.thread[t].cpu] + [t]], c)
  {
    assert StackOk(s, stack, c);
    assert t !in stack[c];
  }

  /** A context that may run and has a slot has the topmost one. */
  lemma SlotsPop(s: State, stack: seq<seq<nat>>, t: nat)
    requires Slots(s, stack) && t < |s.thread| && s.thread[t].pc == DecCount && MayRun(s, t)
    requires ThreadOk(s, t)
    ensures WellFormed(Step(s, t, Proceed)) && |stack[s.thread[t].cpu]| > 0
    ensures Slots(Step(s, t, Proceed), stack[s.thread[t].cpu := stack[s.thread[t].cpu][..|stack[s.thread[t].cpu]| - 1]])
  {
    var s', me := Step(s, t, Proceed), s.thread[t];
    var st := stack[me.cpu];
    assert SlotOk(s, stack, t) && StackOk(s, stack, me.cpu);
    var top := st[|st| - 1];
    assert st[me.idx] == t && s.thread[top].level <= me.level;
    assert me.idx == |st| - 1;
    var stack' := stack[me.cpu := st[..|st| - 1]];
    forall x: nat | x < |s'.thread| ensures ThreadOk(s', x) && SlotOk(s', stack', x) {
      assert ThreadOk(s, x) && SlotOk(s, stack, x);
    }
    forall c: nat | c < |s'.count| ensures StackOk(s', stack', c) { assert StackOk(s, stack, c); }
  }

  // ---------------------------------------------------------------------------
  // Queues
  // ---------------------------------------------------------------------------

  /** What the queue invariant says about `t` and its neighbours. */
  lemma QueueContext(s: State, q: Queue, t: nat)
    requires Queues(s, q) && t < |s.thread|
    ensures QueueOk(s, q, t)
    ensures !s.thread[t].pc.Idle? ==>
              var l := s.thread[t].lk;
              && TailOk(s, q, l)
              && (q.last[l] != None ==> QueueOk(s, q, q.last[l]))
    ensures Queued(s.thread[t].pc) && q.succ[t] != None ==> QueueOk(s, q, q.succ[t])
    ensures Queued(s.thread[t].pc) && q.pred[t] != None ==> QueueOk(s, q, q.pred[t])
  {
    assert QueueOk(s, q, t);
    if !s.thread[t].pc.Idle? {
      assert TailOk(s, q, s.thread[t].lk);
    }
  }

  ghost predicate KeepsPlace(s: State, s': State, t: nat) {
    && OnlyThread(s, s', t)
    && (forall l :: 0 <= l < |s.word| ==> s'.word[l].tail == s.word[l].tail)
    && (Queued(s.thread[t].pc) <==> Queued(s'.thread[t].pc))
    && (Queued(s.thread[t].pc) ==> s'.thread[t].lk == s.thread[t].lk && s'.thread[t].node == s.thread[t].node)
  }

  lemma TailsSteady(s: State, q: Queue, s': State, t: nat)
    requires Queues(s, q) && KeepsPlace(s, s', t)
    ensures Sized(s', q) && forall l :: 0 <= l < |s'.word| ==> TailOk(s', q, l)
  {
    forall l: nat | l < |s'.word| ensures TailOk(s', q, l) { assert TailOk(s, q, l); }
  }

  lemma PlaceSteady(s: State, q: Queue, s': State, t: nat, x: nat)
    requires Queues(s, q) && KeepsPlace(s, s', t) && WellFormed(s') && x < |s.thread|
    ensures ThreadOk(s', x) && PlaceOk(s', q, x)
  {
    assert ThreadOk(s', x);
    QueueContext(s, q, x);
  }

  /** A step that touches neither a node nor a tail nor the link to a waiting successor. */
  lemma QueuesSteady(s: State, q: Queue, s': State, t: nat)
    requires Queues(s, q) && KeepsPlace(s, s', t) && WellFormed(s') && s'.node == s.node
    requires s.thread[t].pc == Waiting(AwaitHead) ==> s'.thread[t].pc == s.thread[t].pc || q.pred[t] == None
    requires ThreadOk(s', t) && NodeOk(s', q, t)
    ensures Queues(s', q)
  {
    TailsSteady(s, q, s', t);
    forall x: nat | x < |s.thread| ensures QueueOk(s', q, x) {
      PlaceSteady(s, q, s', t, x);
      if x != t {
        NodeSteady(s, q, s', t, x);
      }
    }
  }

  lemma NodeSteady(s: State, q: Queue, s': State, t: nat, x: nat)
    requires Queues(s, q) && KeepsPlace(s, s', t) && WellFormed(s') && s'.node == s.node
    requires s.thread[t].pc == Waiting(AwaitHead) ==> s'.thread[t].pc == s.thread[t].pc || q.pred[t] == None
    requires x < |s.thread| && x != t
    ensures ThreadOk(s', x) && NodeOk(s', q, x)
  {
    assert ThreadOk(s', x);
    QueueContext(s, q, x);
  }

  lemma InitNode(s: State, stack: seq<seq<nat>>, q: Queue, t: nat)
    requires Slots(s, stack) && Queues(s, q) && t < |s.thread|
    requires s.thread[t].pc == Slot(InitLocked) || s.thread[t].pc == Slot(InitNext)
    requires WellFormed(SlotStep(s, t))
    ensures Queues(SlotStep(s, t), q)
  {
    hide PlaceOk, NodeOk;
    var s' := SlotStep(s, t);
    QueueContext(s, q, t);
    TailsSteady(s, q, s', t);
    forall x: nat | x < |s.thread| ensures QueueOk(s', q, x) {
      PlaceSteady(s, q, s', t, x);
      InitKeepsNode(s, stack, q, t, x);
    }
  }

  lemma InitKeepsNode(s: State, stack: seq<seq<nat>>, q: Queue, t: nat, x: nat)
    requires Slots(s, stack) && Queues(s, q) && t < |s.thread| && x < |s.thread|
    requires s.thread[t].pc == Slot(InitLocked) || s.thread[t].pc == Slot(InitNext)
    requires WellFormed(SlotStep(s, t))
    ensures ThreadOk(SlotStep(s, t), x) && NodeOk(SlotStep(s, t), q, x)
  {
    if x == t {
      InitOwnNode(s, q, t);
    } else {
      InitOtherNode(s, stack, q, t, x);
    }
  }

  lemma InitOwnNode(s: State, q: Queue, t: nat)
    requires Queues(s, q) && t < |s.thread|
    requires s.thread[t].pc == Slot(InitLocked) || s.thread[t].pc == Slot(InitNext)
    requires WellFormed(s) && WellFormed(SlotStep(s, t))
    ensures ThreadOk(SlotStep(s, t), t) && NodeOk(SlotStep(s, t), q, t)
  {
    hide PlaceOk, TailOk;
    assert ThreadOk(SlotStep(s, t), t);
    QueueContext(s, q, t);
  }

  lemma InitOtherNode(s: State, stack: seq<seq<nat>>, q: Queue, t: nat, x: nat)
    requires Slots(s, stack) && Queues(s, q) && t < |s.thread| && x < |s.thread| && x != t
    requires s.thread[t].pc == Slot(InitLocked) || s.thread[t].pc == Slot(InitNext)
    requires WellFormed(SlotStep(s, t))
    ensures ThreadOk(SlotStep(s, t), x) && NodeOk(SlotStep(s, t), q, x)
  {
    hide TailOk;
    var s' := SlotStep(s, t);
    assert ThreadOk(s', x);
    QueueContext(s, q, x);
    if UsesNode(s.thread[x].pc) {
      NodesDiffer(s, stack, t, x);
      assert s'.node[s.thread[x].node] == s.node[s.thread[x].node];
      if s.thread[x].pc == Waiting(LinkPrev) {
        NodesDiffer(s, stack, t, q.pred[x]);
        assert s'.node[s.thread[x].prev] == s.node[s.thread[x].prev];
      }
    }
  }

  lemma LinkThread(s: State, t: nat, x: nat)
    requires WellFormed(s) && t < |s.thread| && x < |s.thread| && s.thread[t].pc == Waiting(LinkPrev)
    ensures ThreadOk(QueueStep(s, t), x)
  {
    assert ThreadOk(s, t) && ThreadOk(s, x);
  }

  lemma LinkOther(s: State, stack: seq<seq<nat>>, q: Queue, t: nat, x: nat)
    requires Slots(s, stack) && Queues(s, q) && t < |s.thread| && x < |s.thread| && s.thread[t].pc == Waiting(LinkPrev)
    requires x != t && x != q.pred[t] && s.thread[x].pc != Waiting(LinkPrev)
    requires WellFormed(QueueStep(s, t))
    ensures ThreadOk(QueueStep(s, t), x) && NodeOk(QueueStep(s, t), q, x)
  {
    var s', p := QueueStep(s, t), q.pred[t];
    LinkThread(s, t, x);
    QueueContext(s, q, t);
    QueueContext(s, q, x);
    if UsesNode(s.thread[x].pc) {
      NodesDiffer(s, stack, p, x);
      assert s'.node[s.thread[x].node] == s.node[s.thread[x].node];
    }
  }

  lemma LinkOtherLink(s: State, stack: seq<seq<nat>>, q: Queue, t: nat, x: nat)
    requires Slots(s, stack) && Queues(s, q) && t < |s.thread| && x < |s.thread| && s.thread[t].pc == Waiting(LinkPrev)
    requires x != t && x != q.pred[t] && s.thread[x].pc == Waiting(LinkPrev)
    requires WellFormed(QueueStep(s, t))
    ensures ThreadOk(QueueStep(s, t), x) && NodeOk(QueueStep(s, t), q, x)
  {
    var s', p := QueueStep(s, t), q.pred[t];
    LinkThread(s, t, x);
    QueueContext(s, q, t);
    QueueContext(s, q, x);
    NodesDiffer(s, stack, p, x);
    assert s'.node[s.thread[x].node] == s.node[s.thread[x].node];
    NodesDiffer(s, stack, p, q.pred[x]);
  }

  lemma LinkNode(s: State, stack: seq<seq<nat>>, q: Queue, t: nat, x: nat)
    requires Slots(s, stack) && Queues(s, q) && t < |s.thread| && x < |s.thread| && s.thread[t].pc == Waiting(LinkPrev)
    requires WellFormed(QueueStep(s, t))
    ensures ThreadOk(QueueStep(s, t), x) && NodeOk(QueueStep(s, t), q, x)
  {
    var s', p := QueueStep(s, t), q.pred[t];
    assert ThreadOk(s', x);
    QueueContext(s, q, t);
    if x != t && x != p && s.thread[x].pc == Waiting(LinkPrev) {
      LinkOtherLink(s, stack, q, t, x);
    } else if x != t && x != p {
      LinkOther(s, stack, q, t, x);
    } else if p != t {
      NodesDiffer(s, stack, p, t);
      QueueContext(s, q, p);
      if s.thread[p].pc == Waiting(LinkPrev) {
        NodesDiffer(s, stack, p, q.pred[p]);
      }
    }
  }

  lemma Link(s: State, stack: seq<seq<nat>>, q: Queue, t: nat)
    requires Slots(s, stack) && Queues(s, q) && t < |s.thread| && s.thread[t].pc == Waiting(LinkPrev)
    requires WellFormed(QueueStep(s, t))
    ensures Queues(QueueStep(s, t), q)
  {
    var s' := QueueStep(s, t);
    QueueContext(s, q, t);
    TailsSteady(s, q, s', t);
    forall x: nat | x < |s.thread| ensures QueueOk(s', q, x) {
      PlaceSteady(s, q, s', t, x);
      LinkNode(s, stack, q, t, x);
    }
  }

  ghost function Joined(q: Queue, t: nat, l: nat): Queue
    requires l < |q.first| && l < |q.last| && t < |q.pred| && t < |q.succ|
  {
    var p := q.last[l];
    if 0 <= p < |q.succ| then q.(last := q.last[l := t], pred := q.pred[t := p], succ := q.succ[t := None][p := t])
    else Queue(q.first[l := t], q.last[l := t], q.pred[t := None], q.succ[t := None])
  }

  lemma JoinPlace(s: State, q: Queue, t: nat, x: nat)
    requires Queues(s, q) && t < |s.thread| && x < |s.thread| && s.thread[t].pc == Slot(SwapTail)
    requires s.thread[t].lk < |s.word|
    requires WellFormed(s) && WellFormed(SlotStep(s, t))
    ensures ThreadOk(SlotStep(s, t), x) && PlaceOk(SlotStep(s, t), Joined(q, t, s.thread[t].lk), x)
  {
    assert ThreadOk(SlotStep(s, t), x);
    QueueContext(s, q, t);
    QueueContext(s, q, x);
  }

  lemma JoinNode(s: State, q: Queue, t: nat, x: nat)
    requires Queues(s, q) && t < |s.thread| && x < |s.thread| && s.thread[t].pc == Slot(SwapTail)
    requires s.thread[t].lk < |s.word|
    requires WellFormed(s) && WellFormed(SlotStep(s, t))
    ensures ThreadOk(SlotStep(s, t), x) && NodeOk(SlotStep(s, t), Joined(q, t, s.thread[t].lk), x)
  {
    assert ThreadOk(SlotStep(s, t), x);
    QueueContext(s, q, t);
    QueueContext(s, q, x);
  }

  lemma Join(s: State, q: Queue, t: nat)
    requires Queues(s, q) && t < |s.thread| && s.thread[t].pc == Slot(SwapTail) && s.thread[t].lk < |s.word|
    requires WellFormed(s) && WellFormed(SlotStep(s, t))
    ensures Queues(SlotStep(s, t), Joined(q, t, s.thread[t].lk))
  {
    var s', q' := SlotStep(s, t), Joined(q, t, s.thread[t].lk);
    QueueContext(s, q, t);
    forall l: nat | l < |s.word| ensures TailOk(s', q', l) { assert TailOk(s, q, l); }
    forall x: nat | x < |s.thread| ensures QueueOk(s', q', x) {
      JoinPlace(s, q, t, x);
      JoinNode(s, q, t, x);
    }
  }

  ghost function Emptied(q: Queue, l: nat): Queue
    requires l < |q.first| && l < |q.last|
  {
    q.(first := q.first[l := None], last := q.last[l := None])
  }

  /** The head is alone: when the word still is what it saw, the queue becomes empty. */
  lemma LeaveAlone(s: State, stack: seq<seq<nat>>, q: Queue, t: nat)
    requires Slots(s, stack) && Queues(s, q) && t < |s.thread| && s.thread[t].pc == Head(CasTail)
    requires s.thread[t].lk < |s.word|
    requires s.word[s.thread[t].lk].tail == s.thread[t].node
    requires var s' := QueueStep(s, t); WellFormed(s') && s'.thread[t].pc == DecCount
    ensures Queues(QueueStep(s, t), Emptied(q, s.thread[t].lk))
  {
    var s', q' := QueueStep(s, t), Emptied(q, s.thread[t].lk);
    QueueContext(s, q, t);
    var z := q.last[s.thread[t].lk];
    assert z == t by {
      if z != t { NodesDiffer(s, stack, z, t); }
    }
    forall l: nat | l < |s.word| ensures TailOk(s', q', l) { assert TailOk(s, q, l); }
    forall x: nat | x < |s.thread| ensures QueueOk(s', q', x) {
      assert ThreadOk(s', x);
      QueueContext(s, q, x);
    }
  }

  ghost function PassedOn(q: Queue, t: nat, l: nat): Queue
    requires l < |q.first| && t < |q.succ|
  {
    var n := q.succ[t];
    if 0 <= n < |q.pred| then q.(first := q.first[l := n], pred := q.pred[n := None]) else q
  }

  lemma PassPlace(s: State, q: Queue, t: nat, x: nat)
    requires Queues(s, q) && t < |s.thread| && x < |s.thread| && s.thread[t].pc == Owner(Handover)
    requires s.thread[t].lk < |s.word|
    requires WellFormed(s) && WellFormed(QueueStep(s, t))
    ensures ThreadOk(QueueStep(s, t), x) && PlaceOk(QueueStep(s, t), PassedOn(q, t, s.thread[t].lk), x)
  {
    assert ThreadOk(QueueStep(s, t), x);
    QueueContext(s, q, t);
    QueueContext(s, q, x);
  }

  lemma PassNode(s: State, stack: seq<seq<nat>>, q: Queue, t: nat, x: nat)
    requires Slots(s, stack)
    requires Queues(s, q) && t < |s.thread| && x < |s.thread| && s.thread[t].pc == Owner(Handover)
    requires s.thread[t].lk < |s.word|
    requires WellFormed(s) && WellFormed(QueueStep(s, t))
    ensures ThreadOk(QueueStep(s, t), x) && NodeOk(QueueStep(s, t), PassedOn(q, t, s.thread[t].lk), x)
  {
    var n := q.succ[t];
    if UsesNode(s.thread[x].pc) && 0 <= n < |s.thread| && UsesNode(s.thread[n].pc) && x != n {
      NodesDiffer(s, stack, n, x);
    }
    if x == t {
      PassOwnNode(s, q, t);
    } else {
      PassOtherNode(s, q, t, x);
    }
  }

  lemma PassOwnNode(s: State, q: Queue, t: nat)
    requires Queues(s, q) && t < |s.thread| && s.thread[t].pc == Owner(Handover) && s.thread[t].lk < |s.word|
    requires WellFormed(s) && WellFormed(QueueStep(s, t))
    ensures ThreadOk(QueueStep(s, t), t) && NodeOk(QueueStep(s, t), PassedOn(q, t, s.thread[t].lk), t)
  {
    assert ThreadOk(QueueStep(s, t), t);
    QueueContext(s, q, t);
  }

  lemma PassOtherNode(s: State, q: Queue, t: nat, x: nat)
    requires Queues(s, q) && t < |s.thread| && x < |s.thread| && s.thread[t].pc == Owner(Handover)
    requires s.thread[t].lk < |s.word|
    requires WellFormed(s) && WellFormed(QueueStep(s, t)) && x != t
    requires var n := q.succ[t];
             UsesNode(s.thread[x].pc) && 0 <= n < |s.thread| && UsesNode(s.thread[n].pc) && x != n ==>
               s.thread[n].node != s.thread[x].node
    ensures ThreadOk(QueueStep(s, t), x) && NodeOk(QueueStep(s, t), PassedOn(q, t, s.thread[t].lk), x)
  {
    assert ThreadOk(QueueStep(s, t), x);
    QueueContext(s, q, t);
    QueueContext(s, q, x);
  }

  /** The head hands the queue over to its successor. */
  lemma Pass(s: State, stack: seq<seq<nat>>, q: Queue, t: nat)
    requires Slots(s, stack)
    requires Queues(s, q) && t < |s.thread| && s.thread[t].pc == Owner(Handover) && s.thread[t].lk < |s.word|
    requires WellFormed(s) && WellFormed(QueueStep(s, t))
    ensures Queues(QueueStep(s, t), PassedOn(q, t, s.thread[t].lk))
  {
    var s', q' := QueueStep(s, t), PassedOn(q, t, s.thread[t].lk);
    QueueContext(s, q, t);
    forall l: nat | l < |s.word| ensures TailOk(s', q', l) { assert TailOk(s, q, l); }
    forall x: nat | x < |s.thread| ensures QueueOk(s', q', x) {
      PassPlace(s, q, t, x);
      PassNode(s, stack, q, t, x);
    }
  }

  // ---------------------------------------------------------------------------
  // Claims on the lock word
  // ---------------------------------------------------------------------------

  lemma ClaimContext(s: State, k: Claim, t: nat)
    requires Claims(s, k) && t < |s.thread|
    ensures ThreadOk(s, t) && ClaimOk(s, k, t)
    ensures !s.thread[t].pc.Idle? ==> WordOk(s, k, s.thread[t].lk)
  {
    assert ThreadOk(s, t) && ClaimOk(s, k, t);
    if !s.thread[t].pc.Idle? { assert WordOk(s, k, s.thread[t].lk); }
  }

  /** A step that writes neither the locked nor the pending byte. */
  lemma ClaimsSteady(s: State, k: Claim, s': State, t: nat)
    requires Claims(s, k) && OnlyThread(s, s', t) && WellFormed(s')
    requires forall l :: 0 <= l < |s.word| ==>
               s'.word[l].locked == s.word[l].locked && s'.word[l].pending == s.word[l].pending
    requires
      var me, me' := s.thread[t], s'.thread[t];
      && me'.holds == me.holds && (me.pc.Pending? <==> me'.pc.Pending?)
      && (me.pc.Pending? ==> me'.lk == me.lk && (me.pc == Pending(ClearPending) ==> me'.pc == me.pc))
    requires ThreadOk(s', t) && ClaimOk(s', k, t)
    ensures Claims(s', k)
  {
    forall l: nat | l < |s.word| ensures WordOk(s', k, l) { assert WordOk(s, k, l); }
    forall x: nat | x < |s.thread| ensures ThreadOk(s', x) && ClaimOk(s', k, x) {
      assert ThreadOk(s', x);
      if x != t { ClaimContext(s, k, x); }
    }
  }

  /** Thread `t` sets the pending bit; with a tail in the word it will only undo that. */
  lemma SetPending(s: State, q: Queue, k: Claim, t: nat)
    requires Queues(s, q) && Claims(s, k) && t < |s.thread| && s.thread[t].pc == Trying(FetchPending)
    requires s.thread[t].lk < |s.word| && !s.word[s.thread[t].lk].pending
    requires WellFormed(s) && WellFormed(TryStep(s, t, Proceed))
    ensures Claims(TryStep(s, t, Proceed), k.(pender := k.pender[s.thread[t].lk := t]))
  {
    var s', k' := TryStep(s, t, Proceed), k.(pender := k.pender[s.thread[t].lk := t]);
    ClaimContext(s, k, t);
    assert TailOk(s, q, s.thread[t].lk);
    forall l: nat | l < |s.word| ensures WordOk(s', k', l) { assert WordOk(s, k, l); }
    forall x: nat | x < |s.thread| ensures ThreadOk(s', x) && ClaimOk(s', k', x) {
      assert ThreadOk(s', x);
      ClaimContext(s, k, x);
      assert QueueOk(s, q, x);
    }
  }

  lemma UndoPending(s: State, k: Claim, t: nat)
    requires Claims(s, k) && t < |s.thread| && s.thread[t].pc == Pending(ClearPending) && s.thread[t].lk < |s.word|
    requires WellFormed(s) && WellFormed(PendStep(s, t))
    ensures Claims(PendStep(s, t), k.(pender := k.pender[s.thread[t].lk := None]))
  {
    var s', k' := PendStep(s, t), k.(pender := k.pender[s.thread[t].lk := None]);
    ClaimContext(s, k, t);
    forall l: nat | l < |s.word| ensures WordOk(s', k', l) { assert WordOk(s, k, l); }
    forall x: nat | x < |s.thread| ensures ThreadOk(s', x) && ClaimOk(s', k', x) {
      assert ThreadOk(s', x);
      ClaimContext(s, k, x);
    }
  }

  /** Every way of acquiring: the locked byte was clear, and becomes set for `t`. */
  ghost predicate Acquires(s: State, k: Claim, s': State, k': Claim, t: nat) {
    && OnlyThread(s, s', t) && !s.thread[t].pc.Idle? && s.thread[t].lk < |s.word|
    && |k.holder| == |k.pender| == |s.word|
    && var l := s.thread[t].lk;
    && var me, me' := s.thread[t], s'.thread[t];
    && !s.word[l].locked && s'.word[l].locked
    && me'.holds == me.holds + {l} && me'.lk == l
    && (forall m :: 0 <= m < |s.word| && m != l ==> s'.word[m] == s.word[m])
    && k'.holder == k.holder[l := t]
    && (if me.pc.Pending? then !s'.word[l].pending && k'.pender == k.pender[l := None]
        else s'.word[l].pending == s.word[l].pending && k'.pender == k.pender)
    && (me'.pc.Idle? || me'.pc == DecCount || me'.pc.Owner?)
  }

  /** Whoever acquires, no head that has seen the word clear is waiting to set the locked byte, and
      no thread is about to turn pending into locked, unless it is `t` itself. */
  lemma AcquireClaims(s: State, q: Queue, k: Claim, s': State, k': Claim, t: nat)
    requires Queues(s, q) && Claims(s, k) && WellFormed(s) && WellFormed(s') && Acquires(s, k, s', k', t)
    requires
      var w := s.word[s.thread[t].lk];
      || w == Zero
      || s.thread[t].pc == Pending(TakePending)
      || s.thread[t].pc == Head(CasTail) || s.thread[t].pc == Head(SetLocked)
    ensures Claims(s', k')
  {
    var lk := s.thread[t].lk;
    assert TailOk(s, q, lk) && WordOk(s, k, lk);
    forall l: nat | l < |s.word| ensures WordOk(s', k', l) { AcquireWord(s, k, s', k', t, l); }
    forall x: nat | x < |s.thread| ensures ThreadOk(s', x) && ClaimOk(s', k', x) {
      assert ThreadOk(s', x);
      AcquireClaim(s, q, k, s', k', t, x);
    }
  }

  lemma AcquireWord(s: State, k: Claim, s': State, k': Claim, t: nat, l: nat)
    requires Claims(s, k) && Acquires(s, k, s', k', t) && l < |s.word|
    ensures WordOk(s', k', l)
  {
    assert WordOk(s, k, l);
    ClaimContext(s, k, t);
  }

  lemma AcquireClaim(s: State, q: Queue, k: Claim, s': State, k': Claim, t: nat, x: nat)
    requires Queues(s, q) && Claims(s, k) && Acquires(s, k, s', k', t) && x < |s.thread| && ThreadOk(s', x)
    requires
      var w := s.word[s.thread[t].lk];
      || w == Zero
      || s.thread[t].pc == Pending(TakePending)
      || s.thread[t].pc == Head(CasTail) || s.thread[t].pc == Head(SetLocked)
    ensures ClaimOk(s', k', x)
  {
    ClaimContext(s, k, t);
    ClaimContext(s, k, x);
    QueueContext(s, q, t);
    QueueContext(s, q, x);
  }

  lemma Release(s: State, k: Claim, t: nat, lk: nat)
    requires Claims(s, k) && t < |s.thread| && s.thread[t].pc.Idle? && lk < |s.word| && lk in s.thread[t].holds
    requires WellFormed(s) && WellFormed(Step(s, t, Unlock(lk)))
    ensures Claims(Step(s, t, Unlock(lk)), k.(holder := k.holder[lk := None]))
  {
    var s', k' := Step(s, t, Unlock(lk)), k.(holder := k.holder[lk := None]);
    ClaimContext(s, k, t);
    forall l: nat | l < |s.word| ensures WordOk(s', k', l) { assert WordOk(s, k, l); }
    forall x: nat | x < |s.thread| ensures ThreadOk(s', x) && ClaimOk(s', k', x) {
      assert ThreadOk(s', x);
      ClaimContext(s, k, x);
    }
  }

  // ---------------------------------------------------------------------------
  // Every access keeps the invariant
  // ---------------------------------------------------------------------------

  ghost predicate Inv(s: State, stack: seq<seq<nat>>, q: Queue, k: Claim) {
    WellFormed(s) && Slots(s, stack) && Queues(s, q) && Claims(s, k)
  }

  lemma OthersWellFormed(s: State, s': State, t: nat)
    requires WellFormed(s) && OnlyThread(s, s', t) && ThreadOk(s', t)
    ensures WellFormed(s')
  {
    forall x: nat | x < |s'.thread| ensures ThreadOk(s', x) { assert ThreadOk(s, x); }
  }

  lemma TryWellFormed(s: State, stack: seq<seq<nat>>, t: nat, choice: Choice)
    requires Slots(s, stack) && t < |s.thread| && s.thread[t].pc.Trying?
    ensures OnlyThread(s, TryStep(s, t, choice), t) && WellFormed(TryStep(s, t, choice))
  {
    assert ThreadOk(s, t) && StackOk(s, stack, s.thread[t].cpu);
    OthersWellFormed(s, TryStep(s, t, choice), t);
  }

  lemma SlotWellFormed(s: State, q: Queue, t: nat)
    requires WellFormed(s) && Queues(s, q) && t < |s.thread| && s.thread[t].pc.Slot?
    ensures OnlyThread(s, SlotStep(s, t), t) && WellFormed(SlotStep(s, t))
  {
    QueueContext(s, q, t);
    OthersWellFormed(s, SlotStep(s, t), t);
  }

  lemma QueueWellFormed(s: State, q: Queue, t: nat)
    requires WellFormed(s) && Queues(s, q) && t < |s.thread| && Queued(s.thread[t].pc)
    ensures OnlyThread(s, QueueStep(s, t), t) && WellFormed(QueueStep(s, t))
  {
    hide PlaceOk, TailOk;
    QueueContext(s, q, t);
    OthersWellFormed(s, QueueStep(s, t), t);
  }

  /** A step that changes nothing but locals and the program point. */
  lemma Move(s: State, stack: seq<seq<nat>>, q: Queue, k: Claim, t: nat, s': State)
    requires Inv(s, stack, q, k) && OnlyThread(s, s', t) && WellFormed(s')
    requires s'.word == s.word && s'.node == s.node && s'.count == s.count
    requires ThreadOk(s', t) && NodeOk(s', q, t) && ClaimOk(s', k, t)
    requires
      var me, me' := s.thread[t], s'.thread[t];
      && (HasSlot(me.pc) <==> HasSlot(me'.pc)) && (UsesNode(me'.pc) ==> UsesNode(me.pc))
      && (HasSlot(me.pc) ==> me'.idx == me.idx && me'.node == me.node)
      && (Queued(me.pc) <==> Queued(me'.pc)) && (me.pc.Pending? <==> me'.pc.Pending?)
      && (me.pc.Idle? || me'.lk == me.lk) && me'.holds == me.holds
      && (me.pc == Waiting(AwaitHead) || me.pc == Pending(ClearPending) ==> me'.pc == me.pc || q.pred[t] == None)
      && me.pc != Pending(ClearPending)
    ensures Inv(s', stack, q, k)
  {
    SlotsSteady(s, stack, s', t);
    QueuesSteady(s, q, s', t);
    ClaimsSteady(s, k, s', t);
  }

  lemma TryKeeps(s: State, stack: seq<seq<nat>>, q: Queue, k: Claim, t: nat, choice: Choice)
    returns (stack': seq<seq<nat>>, k': Claim)
    requires Inv(s, stack, q, k) && t < |s.thread| && s.thread[t].pc.Trying? && MayRun(s, t)
    ensures Inv(TryStep(s, t, choice), stack', q, k')
  {
    var s', me := TryStep(s, t, choice), s.thread[t];
    TryWellFormed(s, stack, t, choice);
    QueueContext(s, q, t);
    ClaimContext(s, k, t);
    stack', k' := stack, k;
    match me.pc.try
    case IncCount =>
      assert s' == TryStep(s, t, Proceed);
      SlotsPush(s, stack, t);
      stack' := stack[me.cpu := stack[me.cpu] + [t]];
      QueuesSteady(s, q, s', t);
      ClaimsSteady(s, k, s', t);
    case FetchPending =>
      SlotsSteady(s, stack, s', t);
      QueuesSteady(s, q, s', t);
      if s.word[me.lk].pending {
        ClaimsSteady(s, k, s', t);
      } else {
        assert s' == TryStep(s, t, Proceed);
        SetPending(s, q, k, t);
        k' := k.(pender := k.pender[me.lk := t]);
      }
    case FastCas =>
      if s.word[me.lk] == Zero {
        k' := k.(holder := k.holder[me.lk := t]);
        SlotsSteady(s, stack, s', t);
        QueuesSteady(s, q, s', t);
        AcquireClaims(s, q, k, s', k', t);
      } else {
        Move(s, stack, q, k, t, s');
      }
    case SpinOnPending => Move(s, stack, q, k, t, s');
    case TestVal => Move(s, stack, q, k, t, s');
  }

  lemma PendKeeps(s: State, stack: seq<seq<nat>>, q: Queue, k: Claim, t: nat) returns (k': Claim)
    requires Inv(s, stack, q, k) && t < |s.thread| && s.thread[t].pc.Pending?
    ensures Inv(PendStep(s, t), stack, q, k')
  {
    var s', me := PendStep(s, t), s.thread[t];
    ClaimContext(s, k, t);
    OthersWellFormed(s, s', t);
    QueueContext(s, q, t);
    k' := k;
    match me.pc.pend
    case ClearPending =>
      SlotsSteady(s, stack, s', t);
      QueuesSteady(s, q, s', t);
      UndoPending(s, k, t);
      k' := k.(pender := k.pender[me.lk := None]);
    case AwaitUnlocked => Move(s, stack, q, k, t, s');
    case TakePending =>
      k' := Claim(k.holder[me.lk := t], k.pender[me.lk := None]);
      SlotsSteady(s, stack, s', t);
      QueuesSteady(s, q, s', t);
      AcquireClaims(s, q, k, s', k', t);
  }

  lemma SlotKeepsQueues(s: State, stack: seq<seq<nat>>, q: Queue, t: nat) returns (q': Queue)
    requires WellFormed(s) && Slots(s, stack) && Queues(s, q) && t < |s.thread| && s.thread[t].pc.Slot?
    ensures Queues(SlotStep(s, t), q')
  {
    hide Slots;
    var s', me := SlotStep(s, t), s.thread[t];
    SlotWellFormed(s, q, t);
    QueueContext(s, q, t);
    q' := q;
    if me.pc.slot.InitLocked? || me.pc.slot.InitNext? {
      InitNode(s, stack, q, t);
    } else if me.pc.slot.SwapTail? {
      Join(s, q, t);
      q' := Joined(q, t, me.lk);
    } else {
      QueuesSteady(s, q, s', t);
    }
  }

  lemma SlotKeepsClaims(s: State, q: Queue, k: Claim, t: nat) returns (k': Claim)
    requires WellFormed(s) && Queues(s, q) && Claims(s, k) && t < |s.thread| && s.thread[t].pc.Slot?
    ensures Claims(SlotStep(s, t), k')
  {
    hide Queues;
    var s', me := SlotStep(s, t), s.thread[t];
    SlotWellFormed(s, q, t);
    QueueContext(s, q, t);
    ClaimContext(s, k, t);
    k' := k;
    if s'.thread[t].pc == DecCount {
      k' := k.(holder := k.holder[me.lk := t]);
      AcquireClaims(s, q, k, s', k', t);
    } else {
      ClaimsSteady(s, k, s', t);
    }
  }

  lemma SlotKeeps(s: State, stack: seq<seq<nat>>, q: Queue, k: Claim, t: nat) returns (q': Queue, k': Claim)
    requires Inv(s, stack, q, k) && t < |s.thread| && s.thread[t].pc.Slot?
    ensures Inv(SlotStep(s, t), stack, q', k')
  {
    var s' := SlotStep(s, t);
    SlotWellFormed(s, q, t);
    assert SlotOk(s, stack, t);
    SlotsSteady(s, stack, s', t);
    q' := SlotKeepsQueues(s, stack, q, t);
    k' := SlotKeepsClaims(s, q, k, t);
  }

  lemma HeadKeeps(s: State, stack: seq<seq<nat>>, q: Queue, k: Claim, t: nat) returns (q': Queue, k': Claim)
    requires Inv(s, stack, q, k) && t < |s.thread| && s.thread[t].pc.Head?
    ensures Inv(QueueStep(s, t), stack, q', k')
  {
    var s', me := QueueStep(s, t), s.thread[t];
    QueueWellFormed(s, q, t);
    QueueContext(s, q, t);
    ClaimContext(s, k, t);
    q', k' := q, k;
    if s'.thread[t].pc == DecCount {
      k' := k.(holder := k.holder[me.lk := t]);
      SlotsSteady(s, stack, s', t);
      LeaveAlone(s, stack, q, t);
      q' := Emptied(q, me.lk);
      AcquireClaims(s, q, k, s', k', t);
    } else if me.pc.head.SetLocked? {
      k' := k.(holder := k.holder[me.lk := t]);
      SlotsSteady(s, stack, s', t);
      QueuesSteady(s, q, s', t);
      AcquireClaims(s, q, k, s', k', t);
    } else {
      Move(s, stack, q, k, t, s');
    }
  }

  lemma WaitKeeps(s: State, stack: seq<seq<nat>>, q: Queue, k: Claim, t: nat)
    requires Inv(s, stack, q, k) && t < |s.thread| && s.thread[t].pc.Waiting?
    ensures Inv(QueueStep(s, t), stack, q, k)
  {
    var s' := QueueStep(s, t);
    QueueWellFormed(s, q, t);
    QueueContext(s, q, t);
    ClaimContext(s, k, t);
    SlotsSteady(s, stack, s', t);
    ClaimsSteady(s, k, s', t);
    if s.thread[t].pc.wait.LinkPrev? {
      Link(s, stack, q, t);
    } else {
      QueuesSteady(s, q, s', t);
    }
  }

  lemma OwnerKeeps(s: State, stack: seq<seq<nat>>, q: Queue, k: Claim, t: nat) returns (q': Queue)
    requires Inv(s, stack, q, k) && t < |s.thread| && s.thread[t].pc.Owner?
    ensures Inv(QueueStep(s, t), stack, q', k)
  {
    var s' := QueueStep(s, t);
    QueueWellFormed(s, q, t);
    QueueContext(s, q, t);
    ClaimContext(s, k, t);
    SlotsSteady(s, stack, s', t);
    ClaimsSteady(s, k, s', t);
    if s.thread[t].pc.own.Handover? {
      Pass(s, stack, q, t);
      q' := PassedOn(q, t, s.thread[t].lk);
    } else {
      QueuesSteady(s, q, s', t);
      q' := q;
    }
  }

  lemma EndsKeep(s: State, stack: seq<seq<nat>>, q: Queue, k: Claim, t: nat, choice: Choice)
    returns (stack': seq<seq<nat>>, k': Claim)
    requires Inv(s, stack, q, k) && t < |s.thread| && MayRun(s, t)
    requires s.thread[t].pc.Idle? || s.thread[t].pc == DecCount
    ensures Inv(Step(s, t, choice), stack', q, k')
  {
    var s', me := Step(s, t, choice), s.thread[t];
    assert ThreadOk(s, t);
    OthersWellFormed(s, s', t);
    QueueContext(s, q, t);
    ClaimContext(s, k, t);
    stack', k' := stack, k;
    QueuesSteady(s, q, s', t);
    if me.pc == DecCount {
      SlotsPop(s, stack, t);
      assert s' == Step(s, t, Proceed);
      stack' := stack[me.cpu := stack[me.cpu][..|stack[me.cpu]| - 1]];
      ClaimsSteady(s, k, s', t);
    } else {
      SlotsSteady(s, stack, s', t);
      if choice.Unlock? && choice.l < |s.word| && choice.l in me.holds {
        Release(s, k, t, choice.l);
        k' := k.(holder := k.holder[choice.l := None]);
      } else {
        ClaimsSteady(s, k, s', t);
      }
    }
  }

  /** The main step: whichever thread may run, its next access keeps the invariant. */
  lemma StepKeepsInv(s: State, stack: seq<seq<nat>>, q: Queue, k: Claim, t: nat, choice: Choice)
    returns (stack': seq<seq<nat>>, q': Queue, k': Claim)
    requires Inv(s, stack, q, k) && t < |s.thread| && MayRun(s, t)
    ensures Inv(Step(s, t, choice), stack', q', k')
  {
    stack', q', k' := stack, q, k;
    match s.thread[t].pc
    case Trying(_) => stack', k' := TryKeeps(s, stack, q, k, t, choice);
    case Pending(_) => k' := PendKeeps(s, stack, q, k, t);
    case Slot(_) => q', k' := SlotKeeps(s, stack, q, k, t);
    case Waiting(_) => WaitKeeps(s, stack, q, k, t);
    case Head(_) => q', k' := HeadKeeps(s, stack, q, k, t);
    case Owner(_) => q' := OwnerKeeps(s, stack, q, k, t);
    case Idle => stack', k' := EndsKeep(s, stack, q, k, t, choice);
    case DecCount => stack', k' := EndsKeep(s, stack, q, k, t, choice);
  }

  // ---------------------------------------------------------------------------
  // Whole runs
  // ---------------------------------------------------------------------------

  /** `r` follows `s` when some context that may run performs one access. */
  ghost predicate Next(s: State, r: State) {
    WellFormed(s) && exists t: nat, choice :: t < |s.thread| && MayRun(s, t) && r == Step(s, t, choice)
  }

  ghost predicate Run(run: seq<State>) {
    && |run| > 0
    && Init(run[0])
    && (forall i :: 0 <= i < |run| - 1 ==> Next(run[i], run[i + 1]))
  }

  lemma InitInv(s: State) returns (stack: seq<seq<nat>>, q: Queue, k: Claim)
    requires Init(s)
    ensures Inv(s, stack, q, k)
  {
    var noLock := seq(|s.word|, _ => None);
    var noThread := seq(|s.thread|, _ => None);
    stack := seq(|s.count|, _ => []);
    q := Queue(noLock, noLock, noThread, noThread);
    k := Claim(noLock, noLock);
    forall t: nat | t < |s.thread|
      ensures ThreadOk(s, t) && SlotOk(s, stack, t) && QueueOk(s, q, t) && ClaimOk(s, k, t) {}
    forall l: nat | l < |s.word| ensures TailOk(s, q, l) && WordOk(s, k, l) {}
    forall c: nat | c < |s.count| ensures StackOk(s, stack, c) {}
  }

  lemma {:induction false} RunKeepsInv(run: seq<State>, i: nat) returns (stack: seq<seq<nat>>, q: Queue, k: Claim)
    requires Run(run) && i < |run|
    ensures Inv(run[i], stack, q, k)
  {
    if i == 0 {
      stack, q, k := InitInv(run[0]);
    } else {
      stack, q, k := RunKeepsInv(run, i - 1);
      assert Next(run[i - 1], run[i - 1 + 1]);
      var t: nat, choice :| t < |run[i - 1].thread| && MayRun(run[i - 1], t) && run[i] == Step(run[i - 1], t, choice);
      stack, q, k := StepKeepsInv(run[i - 1], stack, q, k, t, choice);
    }
  }

  /** Mutual exclusion: in every interleaving a lock has at most one holder, and the locked byte
      says whether it has one. */
  lemma MutualExclusion(run: seq<State>, i: nat, l: nat, a: nat, b: nat)
    requires Run(run) && i < |run| && l < |run[i].word| && a < |run[i].thread| && b < |run[i].thread|
    ensures l in run[i].thread[a].holds && l in run[i].thread[b].holds ==> a == b
    ensures l in run[i].thread[a].holds ==> run[i].word[l].locked
    ensures run[i].word[l].locked ==> exists t: nat :: t < |run[i].thread| && l in run[i].thread[t].holds
  {
    var stack, q, k := RunKeepsInv(run, i);
    ClaimContext(run[i], k, a);
    ClaimContext(run[i], k, b);
    assert WordOk(run[i], k, l);
  }

  /** At most one thread owns the pending bit of a lock, and the bit is set exactly when one does. */
  lemma OnePendingOwner(run: seq<State>, i: nat, l: nat, a: nat, b: nat)
    requires Run(run) && i < |run| && l < |run[i].word| && a < |run[i].thread| && b < |run[i].thread|
    ensures
      run[i].thread[a].pc.Pending? && run[i].thread[a].lk == l
      && run[i].thread[b].pc.Pending? && run[i].thread[b].lk == l ==>
        a == b && run[i].word[l].pending
    ensures run[i].word[l].pending ==>
              exists t: nat :: t < |run[i].thread| && run[i].thread[t].pc.Pending? && run[i].thread[t].lk == l
  {
    var stack, q, k := RunKeepsInv(run, i);
    ClaimContext(run[i], k, a);
    ClaimContext(run[i], k, b);
    assert WordOk(run[i], k, l);
  }

  /** Neither clear_pending_set_locked nor set_locked, both plain stores, ever fires on a lock that
      somebody holds; and clear_pending_set_locked finds the pending bit set. */
  lemma StoresNeverSteal(run: seq<State>, i: nat, t: nat)
    requires Run(run) && i < |run| && t < |run[i].thread|
    requires run[i].thread[t].pc == Pending(TakePending) || run[i].thread[t].pc == Head(SetLocked)
    ensures
      var l := run[i].thread[t].lk;
      && l < |run[i].word| && !run[i].word[l].locked
      && (run[i].thread[t].pc.Pending? ==> run[i].word[l].pending)
      && forall u: nat :: u < |run[i].thread| ==> l !in run[i].thread[u].holds
  {
    var stack, q, k := RunKeepsInv(run, i);
    ClaimContext(run[i], k, t);
    forall u: nat | u < |run[i].thread| ensures run[i].thread[t].lk !in run[i].thread[u].holds {
      ClaimContext(run[i], k, u);
    }
  }

  // ---------------------------------------------------------------------------
  // Tails as numbers
  // ---------------------------------------------------------------------------

  /** encode_tail, with `idxVal` and `cpuVal` the values of the lowest bit of the index field and of
      the CPU field of the word. */
  function EncodeTail(idxVal: nat, cpuVal: nat, cpu: nat, idx: nat): nat { (cpu + 1) * cpuVal + idx * idxVal }

  /** When the index field has room for MaxNodes values below the CPU field, tails of different
      nodes differ and none is zero; so a tail may be modelled as None or a node number. */
  lemma TailsAreDistinct(idxVal: nat, cpuVal: nat, cpu: nat, idx: nat, cpu': nat, idx': nat)
    requires 0 < idxVal && MaxNodes * idxVal <= cpuVal && idx < MaxNodes && idx' < MaxNodes
    ensures EncodeTail(idxVal, cpuVal, cpu, idx) != 0
    ensures EncodeTail(idxVal, cpuVal, cpu, idx) == EncodeTail(idxVal, cpuVal, cpu', idx') <==>
              GrabNode(cpu, idx) == GrabNode(cpu', idx')
  {
    IndexFits(idxVal, cpuVal, idx);
    IndexFits(idxVal, cpuVal, idx');
    Positive(cpuVal, cpu + 1);
    if cpu < cpu' {
      Positive(cpuVal, cpu' - cpu);
      assert (cpu' + 1) * cpuVal == (cpu + 1) * cpuVal + (cpu' - cpu) * cpuVal;
    } else if cpu' < cpu {
      Positive(cpuVal, cpu - cpu');
      assert (cpu + 1) * cpuVal == (cpu' + 1) * cpuVal + (cpu - cpu') * cpuVal;
    } else if idx < idx' {
      Positive(idxVal, idx' - idx);
      assert idx' * idxVal == idx * idxVal + (idx' - idx) * idxVal;
    } else if idx' < idx {
      Positive(idxVal, idx - idx');
      assert idx * idxVal == idx' * idxVal + (idx - idx') * idxVal;
    }
  }

  lemma IndexFits(idxVal: nat, cpuVal: nat, idx: nat)
    requires 0 < idxVal && MaxNodes * idxVal <= cpuVal && idx < MaxNodes
    ensures 0 <= idx * idxVal < cpuVal
  {
    assert idx == 0 || idx == 1 || idx == 2 || idx == 3;
  }

  lemma Positive(unit: nat, n: nat)
    requires n > 0
    ensures n * unit >= unit
  {
    assert n * unit == (n - 1) * unit + unit;
  }
}
