/** The optimistic spin queue of tests/locking/osq_lock.c: an MCS-style queue lock whose
    waiters may give up and unlink themselves from the middle of the queue.

    One transition is one access to shared memory. There is one node per CPU, and that node is
    shared by all OSQ locks of the system, so the model has any number of locks as well as any
    number of CPUs. A node pointer is a CPU number, or Null.
 */
module Osq {

  const Null := -1

  /** The value of an unlocked tail (OSQ_UNLOCKED_VAL). */
  const Unlocked := 0

  function EncodeCpu(cpu: int): int { cpu + 1 }

  function DecodeCpu(encoded: int): int { encoded - 1 }

  datatype Node = Node(next: int, prev: int, locked: bool, cpu: int)

  // Program points, grouped by what a CPU at that point owes to the queue. Each names the
  // access performed next.

  /** Before the tail is swapped: the node is still private. */
  datatype EnterPc = ClearLocked | ClearNext | SetCpu | SwapTail

  /** Queued behind a predecessor that does not know about it yet. */
  datatype LinkPc = SetPrev | LinkPrev

  /** Spinning, or in step A of the cancellation: may still be granted the lock. */
  datatype WaitPc = Spin | ReadPrevNext | UnlinkPrev | ReadLocked | ReloadPrev

  /** Inside osq_wait_next. */
  datatype WaitNextPc = ReadTail | SwingTail | ReadNext | TakeNext

  /** Past step A: committed to leaving without the lock. */
  datatype LeavePc = ReadPrevCpu | LeaveWait(w: WaitNextPc) | RelinkNext | RelinkPrev

  /** From the true return of osq_lock to the end of osq_unlock. */
  datatype OwnPc = Held | UnlockFast | UnlockTake | OwnWait(w: WaitNextPc) | Grant

  datatype Pc =
    | Idle
    | Entering(enter: EnterPc)
    | Linking(link: LinkPc)
    | Waiting(wait: WaitPc)
    | Leaving(leave: LeavePc)
    | Owning(own: OwnPc)

  predicate Queued(pc: Pc) { !pc.Idle? && !pc.Entering? }

  /** Holds its successor in the local `next`, taken out of node->next by xchg. */
  predicate Took(pc: Pc) {
    || (pc.Leaving? && (pc.leave.RelinkNext? || pc.leave.RelinkPrev?))
    || (pc.Owning? && pc.own.Grant?)
  }

  /** A CPU's program point, the lock it works on, and its locals `prev`, `next` and `old_cpu`. */
  datatype Local = Local(pc: Pc, lk: nat, prev: int, next: int, oldCpu: int)

  datatype State = State(tail: seq<int>, node: seq<Node>, local: seq<Local>)

  /** What a CPU's environment decides: which lock to ask for, when to unlock, and whether to
      stop spinning (need_resched() or a preempted predecessor). */
  datatype Choice = Ask(lk: nat) | Proceed | GiveUp

  predicate Pointer(p: int, n: nat) { Null <= p < n }

  ghost predicate LocalOk(s: State, c: nat)
    requires |s.node| == |s.local| && c < |s.local|
  {
    var n, me, nd := |s.local|, s.local[c], s.node[c];
    && (!me.pc.Idle? ==> me.lk < |s.tail|)
    && Pointer(nd.next, n) && Pointer(nd.prev, n) && Pointer(me.prev, n) && Pointer(me.next, n)
    && 0 <= me.oldCpu <= n && 0 <= nd.cpu <= n
    && (me.pc.Linking? || me.pc.Waiting? || me.pc.Leaving? ==> me.prev != Null)
    && ((me.pc.Linking? && me.pc.link.LinkPrev?) || me.pc.Waiting? ==> nd.prev != Null)
    && (Took(me.pc) ==> me.next != Null)
  }

  ghost predicate TailOk(s: State, l: nat)
    requires l < |s.tail|
  {
    0 <= s.tail[l] <= |s.node|
  }

  ghost predicate WellFormed(s: State) {
    && |s.node| == |s.local|
    && (forall l :: 0 <= l < |s.tail| ==> TailOk(s, l))
    && (forall c :: 0 <= c < |s.local| ==> LocalOk(s, c))
  }

  ghost predicate Init(s: State) {
    && |s.node| == |s.local|
    && (forall l :: 0 <= l < |s.tail| ==> s.tail[l] == Unlocked)
    && (forall c :: 0 <= c < |s.local| ==>
          s.local[c] == Local(Idle, 0, Null, Null, Unlocked) && s.node[c] == Node(Null, Null, false, 0))
  }

  // ---------------------------------------------------------------------------
  // Transitions
  // ---------------------------------------------------------------------------

  /** The same CPUs and the same locks. */
  predicate SameSystem(s: State, s': State) {
    |s'.tail| == |s.tail| && |s'.node| == |s.node| && |s'.local| == |s.local|
  }

  function Goto(s: State, c: nat, pc: Pc): State
    requires c < |s.local|
  {
    s.(local := s.local[c := s.local[c].(pc := pc)])
  }

  function SetNext(s: State, c: int, next: int): State
    requires 0 <= c < |s.node|
  {
    s.(node := s.node[c := s.node[c].(next := next)])
  }

  /** `next = xchg(&node->next, NULL)` when node->next is set. */
  function TakeNode(s: State, c: nat, pc: Pc): State
    requires c < |s.local| && c < |s.node|
  {
    SetNext(s, c, Null).(local := s.local[c := s.local[c].(pc := pc, next := s.node[c].next)])
  }

  /** osq_lock up to the swap of the tail. */
  function EnterStep(s: State, c: nat): (s': State)
    requires WellFormed(s) && c < |s.local| && s.local[c].pc.Entering?
    ensures SameSystem(s, s')
  {
    assert LocalOk(s, c);
    var me := s.local[c];
    assert TailOk(s, me.lk);
    match me.pc.enter
    case ClearLocked => Goto(s.(node := s.node[c := s.node[c].(locked := false)]), c, Entering(ClearNext))
    case ClearNext => Goto(SetNext(s, c, Null), c, Entering(SetCpu))
    case SetCpu => Goto(s.(node := s.node[c := s.node[c].(cpu := EncodeCpu(c))]), c, Entering(SwapTail))
    case SwapTail =>
      var was := s.tail[me.lk];
      s.(tail := s.tail[me.lk := EncodeCpu(c)],
         local := s.local[c := if was == Unlocked then me.(pc := Owning(Held))
                               else me.(pc := Linking(SetPrev), prev := DecodeCpu(was))])
  }

  /** osq_lock from `node->prev = prev` to `prev->next = node`. */
  function LinkStep(s: State, c: nat): (s': State)
    requires WellFormed(s) && c < |s.local| && s.local[c].pc.Linking?
    ensures SameSystem(s, s')
  {
    assert LocalOk(s, c);
    var me := s.local[c];
    match me.pc.link
    case SetPrev => Goto(s.(node := s.node[c := s.node[c].(prev := me.prev)]), c, Linking(LinkPrev))
    case LinkPrev => Goto(SetNext(s, me.prev, c), c, Waiting(Spin))
  }

  /** The spin on node->locked and step A. */
  function WaitStep(s: State, c: nat, choice: Choice): (s': State)
    requires WellFormed(s) && c < |s.local| && s.local[c].pc.Waiting?
    ensures SameSystem(s, s')
  {
    assert LocalOk(s, c);
    var me := s.local[c];
    match me.pc.wait
    case Spin =>
      if s.node[c].locked then Goto(s, c, Owning(Held))
      else if choice == GiveUp then Goto(s, c, Waiting(ReadPrevNext))
      else s
    case ReadPrevNext => Goto(s, c, Waiting(if s.node[me.prev].next == c then UnlinkPrev else ReadLocked))
    case UnlinkPrev =>
      if s.node[me.prev].next == c then Goto(SetNext(s, me.prev, Null), c, Leaving(ReadPrevCpu))
      else Goto(s, c, Waiting(ReadLocked))
    case ReadLocked => Goto(s, c, if s.node[c].locked then Owning(Held) else Waiting(ReloadPrev))
    case ReloadPrev => s.(local := s.local[c := me.(pc := Waiting(ReadPrevNext), prev := s.node[c].prev)])
  }

  /** Where osq_wait_next continues in its two callers, osq_lock and osq_unlock. */
  function InWait(w: WaitNextPc, own: bool): Pc { if own then Owning(OwnWait(w)) else Leaving(LeaveWait(w)) }

  /** osq_wait_next: leave through the tail, or take the successor out of node->next. */
  function WaitNextStep(s: State, c: nat, w: WaitNextPc, own: bool): (s': State)
    requires WellFormed(s) && c < |s.local| && s.local[c].pc == InWait(w, own)
    ensures SameSystem(s, s')
  {
    assert LocalOk(s, c);
    var me := s.local[c];
    match w
    case ReadTail => Goto(s, c, InWait(if s.tail[me.lk] == EncodeCpu(c) then SwingTail else ReadNext, own))
    case SwingTail =>
      if s.tail[me.lk] == EncodeCpu(c) then Goto(s.(tail := s.tail[me.lk := me.oldCpu]), c, Idle)
      else Goto(s, c, InWait(ReadNext, own))
    case ReadNext => Goto(s, c, InWait(if s.node[c].next != Null then TakeNext else ReadTail, own))
    case TakeNext =>
      if s.node[c].next == Null then Goto(s, c, InWait(ReadTail, own))
      else TakeNode(s, c, if own then Owning(Grant) else Leaving(RelinkNext))
  }

  /** Steps B and C of the cancellation. */
  function LeaveStep(s: State, c: nat): (s': State)
    requires WellFormed(s) && c < |s.local| && s.local[c].pc.Leaving?
    ensures SameSystem(s, s')
  {
    assert LocalOk(s, c);
    var me := s.local[c];
    match me.pc.leave
    case ReadPrevCpu =>
      s.(local := s.local[c := me.(pc := Leaving(LeaveWait(ReadTail)), oldCpu := s.node[me.prev].cpu)])
    case LeaveWait(w) => WaitNextStep(s, c, w, false)
    case RelinkNext => Goto(s.(node := s.node[me.next := s.node[me.next].(prev := me.prev)]), c, Leaving(RelinkPrev))
    case RelinkPrev => Goto(SetNext(s, me.prev, me.next), c, Idle)
  }

  /** osq_unlock. */
  function OwnStep(s: State, c: nat, choice: Choice): (s': State)
    requires WellFormed(s) && c < |s.local| && s.local[c].pc.Owning?
    ensures SameSystem(s, s')
  {
    assert LocalOk(s, c);
    var me := s.local[c];
    match me.pc.own
    case Held => if choice == Proceed then Goto(s, c, Owning(UnlockFast)) else s
    case UnlockFast =>
      if s.tail[me.lk] == EncodeCpu(c) then Goto(s.(tail := s.tail[me.lk := Unlocked]), c, Idle)
      else Goto(s, c, Owning(UnlockTake))
    case UnlockTake =>
      if s.node[c].next != Null then TakeNode(s, c, Owning(Grant))
      else s.(local := s.local[c := me.(pc := Owning(OwnWait(ReadTail)), oldCpu := Unlocked)])
    case OwnWait(w) => WaitNextStep(s, c, w, true)
    case Grant => Goto(s.(node := s.node[me.next := s.node[me.next].(locked := true)]), c, Idle)
  }

  function Step(s: State, c: nat, choice: Choice): (s': State)
    requires WellFormed(s) && c < |s.local|
    ensures SameSystem(s, s')
  {
    var me := s.local[c];
    match me.pc
    case Idle =>
      if choice.Ask? && choice.lk < |s.tail|
      then s.(local := s.local[c := me.(pc := Entering(ClearLocked), lk := choice.lk)])
      else s
    case Entering(_) => EnterStep(s, c)
    case Linking(_) => LinkStep(s, c)
    case Waiting(_) => WaitStep(s, c, choice)
    case Leaving(_) => LeaveStep(s, c)
    case Owning(_) => OwnStep(s, c, choice)
  }

  // ---------------------------------------------------------------------------
  // The queue behind the pointers
  // ---------------------------------------------------------------------------

  /** The order in which CPUs stand in the queues: per lock its first and last CPU, per CPU its
      predecessor and successor. The state determines it only up to the links that are in flight,
      so it is carried along by the proof. */
  datatype Queue = Queue(head: seq<int>, last: seq<int>, pred: seq<int>, succ: seq<int>)

  ghost predicate Sized(s: State, q: Queue) {
    && |s.node| == |s.local| == |q.pred| == |q.succ|
    && |s.tail| == |q.head| == |q.last|
  }

  ghost predicate End(s: State, l: nat, c: int)
  {
    c == Null || (0 <= c < |s.local| && Queued(s.local[c].pc) && s.local[c].lk == l)
  }

  ghost predicate LockOk(s: State, q: Queue, l: nat)
    requires Sized(s, q) && l < |s.tail|
  {
    && s.tail[l] == EncodeCpu(q.last[l])
    && (q.head[l] == Null <==> q.last[l] == Null)
    && End(s, l, q.head[l])
    && End(s, l, q.last[l])
  }

  ghost predicate Neighbours(s: State, q: Queue, a: int, b: int)
    requires Sized(s, q)
  {
    && 0 <= a < |s.node| && 0 <= b < |s.node|
    && Queued(s.local[a].pc) && Queued(s.local[b].pc)
    && s.local[a].lk == s.local[b].lk
    && q.succ[a] == b && q.pred[b] == a
  }

  /** Where a queued CPU stands in its queue. */
  ghost predicate PlaceOk(s: State, q: Queue, c: nat)
    requires Sized(s, q) && c < |s.node| && LocalOk(s, c)
  {
    var me := s.local[c];
    Queued(me.pc) ==>
      && (q.pred[c] == Null <==> q.head[me.lk] == c)
      && (q.succ[c] == Null <==> q.last[me.lk] == c)
      && (q.pred[c] != Null ==> Neighbours(s, q, q.pred[c], c))
      && (q.succ[c] != Null ==> Neighbours(s, q, c, q.succ[c]))
  }

  /** How the memory a CPU wrote, and its locals, relate to its place. */
  ghost predicate LinkOk(s: State, q: Queue, c: nat)
    requires Sized(s, q) && c < |s.node| && LocalOk(s, c)
  {
    var me, nd := s.local[c], s.node[c];
    // a next pointer that is visible leads to the successor, which has not passed step A
    && (nd.next != Null ==> Queued(me.pc) && q.succ[c] == nd.next && s.local[nd.next].pc.Waiting?)
    // before linking, and past step A, the local prev is the predecessor, which cannot see us
    && (me.pc.Linking? || me.pc.Leaving? ==> q.pred[c] == me.prev && s.node[me.prev].next == Null && !nd.locked)
    && (Took(me.pc) ==> q.succ[c] == me.next && s.local[me.next].pc.Waiting? && nd.next == Null)
    // the first in the queue owns the lock or has been granted it; nobody else does
    && (me.pc.Owning? ==> q.head[me.lk] == c)
    && (me.pc.Linking? || me.pc.Waiting? || me.pc.Leaving? ==> (q.head[me.lk] == c <==> nd.locked))
    && (me.pc.Entering? && !me.pc.enter.ClearLocked? ==> !nd.locked)
    && (Queued(me.pc) || (me.pc.Entering? && me.pc.enter.SwapTail?) ==> nd.cpu == EncodeCpu(c))
    && (me.pc.Leaving? && me.pc.leave.LeaveWait? ==> me.oldCpu == EncodeCpu(me.prev))
    && (me.pc.Owning? && me.pc.own.OwnWait? ==> me.oldCpu == Unlocked)
  }

  ghost predicate CpuOk(s: State, q: Queue, c: nat)
    requires Sized(s, q) && c < |s.node|
  {
    LocalOk(s, c) && PlaceOk(s, q, c) && LinkOk(s, q, c)
  }

  ghost predicate Inv(s: State, q: Queue) {
    && WellFormed(s)
    && Sized(s, q)
    && (forall l :: 0 <= l < |s.tail| ==> LockOk(s, q, l))
    && (forall c :: 0 <= c < |s.node| ==> CpuOk(s, q, c))
  }

  // How the queue changes: only by joining, leaving through the tail, being unlinked from the
  // middle, and passing the lock on.

  ghost predicate SameSize(q: Queue, q': Queue) {
    |q'.head| == |q.head| && |q'.last| == |q.last| && |q'.pred| == |q.pred| && |q'.succ| == |q.succ|
  }

  ghost function Join(s: State, q: Queue, c: nat): (q': Queue)
    requires Inv(s, q) && c < |s.local| && !s.local[c].pc.Idle?
    ensures SameSize(q, q')
  {
    assert CpuOk(s, q, c);
    var l := s.local[c].lk;
    assert LockOk(s, q, l);
    var p := q.last[l];
    if p == Null then Queue(q.head[l := c], q.last[l := c], q.pred[c := Null], q.succ[c := Null])
    else Queue(q.head, q.last[l := c], q.pred[c := p], q.succ[c := Null][p := c])
  }

  ghost function LeaveLast(s: State, q: Queue, c: nat): (q': Queue)
    requires Inv(s, q) && c < |s.local| && Queued(s.local[c].pc)
    ensures SameSize(q, q')
  {
    assert CpuOk(s, q, c);
    var l, p := s.local[c].lk, q.pred[c];
    if p == Null then q.(head := q.head[l := Null], last := q.last[l := Null])
    else q.(last := q.last[l := p], succ := q.succ[p := Null])
  }

  ghost function Unlink(s: State, q: Queue, c: nat): (q': Queue)
    requires Inv(s, q) && c < |s.local| && Queued(s.local[c].pc) && q.pred[c] != Null && q.succ[c] != Null
    ensures SameSize(q, q')
  {
    assert CpuOk(s, q, c);
    var p, n := q.pred[c], q.succ[c];
    q.(pred := q.pred[n := p], succ := q.succ[p := n])
  }

  ghost function PassOn(s: State, q: Queue, c: nat): (q': Queue)
    requires Inv(s, q) && c < |s.local| && Queued(s.local[c].pc) && q.succ[c] != Null
    ensures SameSize(q, q')
  {
    assert CpuOk(s, q, c);
    var n := q.succ[c];
    q.(head := q.head[s.local[c].lk := n], pred := q.pred[n := Null])
  }

  /** What the invariant says about `c` and the CPUs around it. */
  lemma Context(s: State, q: Queue, c: nat)
    requires Inv(s, q) && c < |s.local|
    ensures CpuOk(s, q, c)
    ensures !s.local[c].pc.Idle? ==>
              var l := s.local[c].lk;
              && LockOk(s, q, l) && TailOk(s, l)
              && (q.last[l] != Null ==> CpuOk(s, q, q.last[l]))
    ensures Queued(s.local[c].pc) && q.succ[c] != Null ==> CpuOk(s, q, q.succ[c])
    ensures Queued(s.local[c].pc) && q.pred[c] != Null ==> CpuOk(s, q, q.pred[c])
    ensures s.local[c].prev != Null ==> CpuOk(s, q, s.local[c].prev)
  {
    assert CpuOk(s, q, c);
    if !s.local[c].pc.Idle? {
      assert LockOk(s, q, s.local[c].lk) && TailOk(s, s.local[c].lk);
    }
  }

  // ---------------------------------------------------------------------------
  // Every access keeps the invariant
  // ---------------------------------------------------------------------------

  /** `s'` differs from `s` only in node fields and in what `c` does while it stays where it is. */
  ghost predicate StaysPut(s: State, s': State, c: nat) {
    && SameSystem(s, s') && |s.node| == |s.local| && c < |s.local| && s'.tail == s.tail
    && s'.local == s.local[c := s'.local[c]]
    && s'.local[c].lk == s.local[c].lk
    && (Queued(s.local[c].pc) <==> Queued(s'.local[c].pc))
  }

  lemma SamePlaces(s: State, q: Queue, s': State, c: nat, x: nat)
    requires Inv(s, q) && StaysPut(s, s', c) && x < |s.local| && LocalOk(s', x)
    ensures PlaceOk(s', q, x)
  {
    Context(s, q, x);
  }

  lemma SameLocks(s: State, q: Queue, s': State, c: nat)
    requires Inv(s, q) && StaysPut(s, s', c)
    ensures Sized(s', q)
    ensures forall l: nat | l < |s'.tail| :: LockOk(s', q, l) && TailOk(s', l)
  {
    forall l: nat | l < |s'.tail| ensures LockOk(s', q, l) && TailOk(s', l) {
      assert LockOk(s, q, l) && TailOk(s, l);
    }
  }

  /** A step that only moves `c` between program points of the same group. */
  lemma MoveKeepsAt(s: State, q: Queue, c: nat, me': Local, x: nat)
    requires Inv(s, q) && c < |s.local|
    requires
      var me := s.local[c];
      && me'.lk == me.lk
      && Queued(me.pc) && Queued(me'.pc) && (me.pc.Waiting? ==> me'.pc.Waiting?)
    requires var s' := s.(local := s.local[c := me']); LocalOk(s', c) && LinkOk(s', q, c)
    requires x < |s.local|
    ensures LocalOk(s.(local := s.local[c := me']), x) && CpuOk(s.(local := s.local[c := me']), q, x)
  {
    if x != c {
      Context(s, q, c);
      Context(s, q, x);
    }
    SamePlaces(s, q, s.(local := s.local[c := me']), c, x);
  }

  lemma MoveKeeps(s: State, q: Queue, c: nat, me': Local)
    requires Inv(s, q) && c < |s.local|
    requires
      var me := s.local[c];
      && me'.lk == me.lk
      && Queued(me.pc) && Queued(me'.pc) && (me.pc.Waiting? ==> me'.pc.Waiting?)
    requires var s' := s.(local := s.local[c := me']); LocalOk(s', c) && LinkOk(s', q, c)
    ensures Inv(s.(local := s.local[c := me']), q)
  {
    Context(s, q, c);
    var s' := s.(local := s.local[c := me']);
    SameLocks(s, q, s', c);
    forall x: nat | x < |s.local| ensures LocalOk(s', x) && CpuOk(s', q, x) { MoveKeepsAt(s, q, c, me', x); }
  }

  /** A step that writes only `c`'s own node, and not its next pointer. */
  lemma PrivateKeepsAt(s: State, q: Queue, c: nat, nd': Node, pc': Pc, x: nat)
    requires Inv(s, q) && c < |s.local| && nd'.next == s.node[c].next
    requires
      var pc := s.local[c].pc;
      || (pc.Entering? && pc'.Entering?)
      || (pc.Linking? && pc'.Linking? && nd'.locked == s.node[c].locked)
    requires
      var s' := Goto(s.(node := s.node[c := nd']), c, pc');
      LocalOk(s', c) && LinkOk(s', q, c)
    requires x < |s.local|
    ensures LocalOk(Goto(s.(node := s.node[c := nd']), c, pc'), x)
    ensures CpuOk(Goto(s.(node := s.node[c := nd']), c, pc'), q, x)
  {
    if x != c {
      Context(s, q, c);
      Context(s, q, x);
    }
    SamePlaces(s, q, Goto(s.(node := s.node[c := nd']), c, pc'), c, x);
  }

  lemma PrivateKeeps(s: State, q: Queue, c: nat, nd': Node, pc': Pc)
    requires Inv(s, q) && c < |s.local| && nd'.next == s.node[c].next
    requires
      var pc := s.local[c].pc;
      || (pc.Entering? && pc'.Entering?)
      || (pc.Linking? && pc'.Linking? && nd'.locked == s.node[c].locked)
    requires
      var s' := Goto(s.(node := s.node[c := nd']), c, pc');
      LocalOk(s', c) && LinkOk(s', q, c)
    ensures Inv(Goto(s.(node := s.node[c := nd']), c, pc'), q)
  {
    Context(s, q, c);
    var s' := Goto(s.(node := s.node[c := nd']), c, pc');
    SameLocks(s, q, s', c);
    forall x: nat | x < |s.local| ensures LocalOk(s', x) && CpuOk(s', q, x) { PrivateKeepsAt(s, q, c, nd', pc', x); }
  }

  lemma LinkPrevKeepsAt(s: State, q: Queue, c: nat, x: nat)
    requires Inv(s, q) && c < |s.local| && s.local[c].pc == Linking(LinkPrev)
    requires x < |s.local|
    ensures LocalOk(LinkStep(s, c), x) && CpuOk(LinkStep(s, c), q, x)
  {
    Context(s, q, c);
    Context(s, q, x);
    SamePlaces(s, q, LinkStep(s, c), c, x);
  }

  lemma LinkPrevKeeps(s: State, q: Queue, c: nat)
    requires Inv(s, q) && c < |s.local| && s.local[c].pc == Linking(LinkPrev)
    ensures Inv(LinkStep(s, c), q)
  {
    Context(s, q, c);
    var s' := LinkStep(s, c);
    SameLocks(s, q, s', c);
    forall x: nat | x < |s.local| ensures LocalOk(s', x) && CpuOk(s', q, x) { LinkPrevKeepsAt(s, q, c, x); }
  }

  /** A waiter that finds its locked flag set takes the lock. */
  lemma ClaimKeepsAt(s: State, q: Queue, c: nat, x: nat)
    requires Inv(s, q) && c < |s.local| && s.local[c].pc.Waiting? && s.node[c].locked
    requires x < |s.local|
    ensures LocalOk(Goto(s, c, Owning(Held)), x) && CpuOk(Goto(s, c, Owning(Held)), q, x)
  {
    Context(s, q, c);
    Context(s, q, x);
    SamePlaces(s, q, Goto(s, c, Owning(Held)), c, x);
  }

  lemma ClaimKeeps(s: State, q: Queue, c: nat)
    requires Inv(s, q) && c < |s.local| && s.local[c].pc.Waiting? && s.node[c].locked
    ensures Inv(Goto(s, c, Owning(Held)), q)
  {
    Context(s, q, c);
    var s' := Goto(s, c, Owning(Held));
    SameLocks(s, q, s', c);
    forall x: nat | x < |s.local| ensures LocalOk(s', x) && CpuOk(s', q, x) { ClaimKeepsAt(s, q, c, x); }
  }

  /** Step A succeeds: the predecessor loses sight of `c`. */
  lemma UnlinkPrevKeepsAt(s: State, q: Queue, c: nat, x: nat)
    requires Inv(s, q) && c < |s.local| && s.local[c].pc.Waiting?
    requires var p := s.local[c].prev; 0 <= p < |s.node| && s.node[p].next == c
    requires x < |s.local|
    ensures LocalOk(Goto(SetNext(s, s.local[c].prev, Null), c, Leaving(ReadPrevCpu)), x)
    ensures CpuOk(Goto(SetNext(s, s.local[c].prev, Null), c, Leaving(ReadPrevCpu)), q, x)
  {
    Context(s, q, c);
    Context(s, q, x);
    SamePlaces(s, q, Goto(SetNext(s, s.local[c].prev, Null), c, Leaving(ReadPrevCpu)), c, x);
  }

  lemma UnlinkPrevKeeps(s: State, q: Queue, c: nat)
    requires Inv(s, q) && c < |s.local| && s.local[c].pc.Waiting?
    requires var p := s.local[c].prev; 0 <= p < |s.node| && s.node[p].next == c
    ensures Inv(Goto(SetNext(s, s.local[c].prev, Null), c, Leaving(ReadPrevCpu)), q)
  {
    Context(s, q, c);
    var s' := Goto(SetNext(s, s.local[c].prev, Null), c, Leaving(ReadPrevCpu));
    SameLocks(s, q, s', c);
    forall x: nat | x < |s.local| ensures LocalOk(s', x) && CpuOk(s', q, x) { UnlinkPrevKeepsAt(s, q, c, x); }
  }

  /** The successor is taken out of node->next, by a CPU that unlocks or by one that leaves. */
  lemma TakeKeepsAt(s: State, q: Queue, c: nat, pc': Pc, x: nat)
    requires Inv(s, q) && c < |s.local| && s.node[c].next != Null
    requires
      || (s.local[c].pc.Owning? && pc' == Owning(Grant))
      || (s.local[c].pc.Leaving? && pc' == Leaving(RelinkNext))
    requires x < |s.local|
    ensures LocalOk(TakeNode(s, c, pc'), x) && CpuOk(TakeNode(s, c, pc'), q, x)
  {
    Context(s, q, c);
    Context(s, q, x);
    SamePlaces(s, q, TakeNode(s, c, pc'), c, x);
  }

  lemma TakeKeeps(s: State, q: Queue, c: nat, pc': Pc)
    requires Inv(s, q) && c < |s.local| && s.node[c].next != Null
    requires
      || (s.local[c].pc.Owning? && pc' == Owning(Grant))
      || (s.local[c].pc.Leaving? && pc' == Leaving(RelinkNext))
    ensures Inv(TakeNode(s, c, pc'), q)
  {
    Context(s, q, c);
    var s' := TakeNode(s, c, pc');
    SameLocks(s, q, s', c);
    forall x: nat | x < |s.local| ensures LocalOk(s', x) && CpuOk(s', q, x) { TakeKeepsAt(s, q, c, pc', x); }
  }

  lemma RelinkNextKeepsAt(s: State, q: Queue, c: nat, x: nat)
    requires Inv(s, q) && c < |s.local| && s.local[c].pc == Leaving(RelinkNext)
    requires x < |s.local|
    ensures LocalOk(LeaveStep(s, c), x) && CpuOk(LeaveStep(s, c), q, x)
  {
    Context(s, q, c);
    Context(s, q, x);
    SamePlaces(s, q, LeaveStep(s, c), c, x);
  }

  lemma RelinkNextKeeps(s: State, q: Queue, c: nat)
    requires Inv(s, q) && c < |s.local| && s.local[c].pc == Leaving(RelinkNext)
    ensures Inv(LeaveStep(s, c), q)
  {
    Context(s, q, c);
    var s' := LeaveStep(s, c);
    SameLocks(s, q, s', c);
    forall x: nat | x < |s.local| ensures LocalOk(s', x) && CpuOk(s', q, x) { RelinkNextKeepsAt(s, q, c, x); }
  }

  lemma SwapTailKeepsPlace(s: State, q: Queue, c: nat, x: nat)
    requires Inv(s, q) && c < |s.local| && s.local[c].pc == Entering(SwapTail)
    requires x < |s.local|
    ensures LocalOk(EnterStep(s, c), x) && PlaceOk(EnterStep(s, c), Join(s, q, c), x)
  {
    hide LinkOk;
    Context(s, q, c);
    if x != c {
      JoinKeepsPlace(s, q, c, x);
    }
  }

  lemma JoinKeepsPlace(s: State, q: Queue, c: nat, x: nat)
    requires Inv(s, q) && c < |s.local| && s.local[c].pc == Entering(SwapTail)
    requires x < |s.local| && x != c
    ensures LocalOk(EnterStep(s, c), x) && PlaceOk(EnterStep(s, c), Join(s, q, c), x)
  {
    hide LinkOk;
    Context(s, q, c);
    Context(s, q, x);
  }

  lemma SwapTailKeepsAt(s: State, q: Queue, c: nat, x: nat)
    requires Inv(s, q) && c < |s.local| && s.local[c].pc == Entering(SwapTail)
    requires x < |s.local|
    ensures LocalOk(EnterStep(s, c), x) && CpuOk(EnterStep(s, c), Join(s, q, c), x)
  {
    Context(s, q, c);
    Context(s, q, x);
    SwapTailKeepsPlace(s, q, c, x);
  }

  lemma SwapTailKeeps(s: State, q: Queue, c: nat)
    requires Inv(s, q) && c < |s.local| && s.local[c].pc == Entering(SwapTail)
    ensures Inv(EnterStep(s, c), Join(s, q, c))
  {
    Context(s, q, c);
    var s', q' := EnterStep(s, c), Join(s, q, c);
    forall l: nat | l < |s.tail| ensures LockOk(s', q', l) && TailOk(s', l) { assert LockOk(s, q, l) && TailOk(s, l); }
    forall x: nat | x < |s.local| ensures LocalOk(s', x) && CpuOk(s', q', x) { SwapTailKeepsAt(s, q, c, x); }
  }

  /** The last in the queue leaves through the tail. */
  lemma LeaveLastKeepsPlace(s: State, q: Queue, c: nat, tail': int, x: nat)
    requires Inv(s, q) && c < |s.local| && (s.local[c].pc.Leaving? || s.local[c].pc.Owning?)
    requires s.local[c].lk < |s.tail| && s.tail[s.local[c].lk] == EncodeCpu(c)
    requires tail' == if s.local[c].pc.Owning? then Unlocked else EncodeCpu(s.local[c].prev)
    requires x < |s.local|
    ensures LocalOk(Goto(s.(tail := s.tail[s.local[c].lk := tail']), c, Idle), x)
    ensures PlaceOk(Goto(s.(tail := s.tail[s.local[c].lk := tail']), c, Idle), LeaveLast(s, q, c), x)
  {
    Context(s, q, c);
    Context(s, q, x);
  }

  lemma LeaveLastKeepsAt(s: State, q: Queue, c: nat, tail': int, x: nat)
    requires Inv(s, q) && c < |s.local| && (s.local[c].pc.Leaving? || s.local[c].pc.Owning?)
    requires s.local[c].lk < |s.tail| && s.tail[s.local[c].lk] == EncodeCpu(c)
    requires tail' == if s.local[c].pc.Owning? then Unlocked else EncodeCpu(s.local[c].prev)
    requires x < |s.local|
    ensures LocalOk(Goto(s.(tail := s.tail[s.local[c].lk := tail']), c, Idle), x)
    ensures CpuOk(Goto(s.(tail := s.tail[s.local[c].lk := tail']), c, Idle), LeaveLast(s, q, c), x)
  {
    Context(s, q, c);
    Context(s, q, x);
    LeaveLastKeepsPlace(s, q, c, tail', x);
  }

  lemma LeaveLastKeeps(s: State, q: Queue, c: nat, tail': int)
    requires Inv(s, q) && c < |s.local| && (s.local[c].pc.Leaving? || s.local[c].pc.Owning?)
    requires s.local[c].lk < |s.tail| && s.tail[s.local[c].lk] == EncodeCpu(c)
    requires tail' == if s.local[c].pc.Owning? then Unlocked else EncodeCpu(s.local[c].prev)
    ensures Inv(Goto(s.(tail := s.tail[s.local[c].lk := tail']), c, Idle), LeaveLast(s, q, c))
  {
    Context(s, q, c);
    var s', q' := Goto(s.(tail := s.tail[s.local[c].lk := tail']), c, Idle), LeaveLast(s, q, c);
    forall l: nat | l < |s.tail| ensures LockOk(s', q', l) && TailOk(s', l) { assert LockOk(s, q, l) && TailOk(s, l); }
    forall x: nat | x < |s.local| ensures LocalOk(s', x) && CpuOk(s', q', x) { LeaveLastKeepsAt(s, q, c, tail', x); }
  }

  /** Step C completes: predecessor and successor are neighbours again. */
  lemma RelinkPrevKeepsPlace(s: State, q: Queue, c: nat, x: nat)
    requires Inv(s, q) && c < |s.local| && s.local[c].pc == Leaving(RelinkPrev)
    requires x < |s.local|
    ensures q.pred[c] != Null && q.succ[c] != Null
    ensures LocalOk(LeaveStep(s, c), x) && PlaceOk(LeaveStep(s, c), Unlink(s, q, c), x)
  {
    Context(s, q, c);
    Context(s, q, x);
  }

  lemma RelinkPrevKeepsAt(s: State, q: Queue, c: nat, x: nat)
    requires Inv(s, q) && c < |s.local| && s.local[c].pc == Leaving(RelinkPrev)
    requires x < |s.local|
    ensures q.pred[c] != Null && q.succ[c] != Null
    ensures LocalOk(LeaveStep(s, c), x) && CpuOk(LeaveStep(s, c), Unlink(s, q, c), x)
  {
    Context(s, q, c);
    Context(s, q, x);
    RelinkPrevKeepsPlace(s, q, c, x);
  }

  lemma RelinkPrevKeeps(s: State, q: Queue, c: nat)
    requires Inv(s, q) && c < |s.local| && s.local[c].pc == Leaving(RelinkPrev)
    ensures q.pred[c] != Null && q.succ[c] != Null
    ensures Inv(LeaveStep(s, c), Unlink(s, q, c))
  {
    Context(s, q, c);
    var s', q' := LeaveStep(s, c), Unlink(s, q, c);
    forall l: nat | l < |s.tail| ensures LockOk(s', q', l) && TailOk(s', l) { assert LockOk(s, q, l) && TailOk(s, l); }
    forall x: nat | x < |s.local| ensures LocalOk(s', x) && CpuOk(s', q', x) { RelinkPrevKeepsAt(s, q, c, x); }
  }

  lemma GrantKeepsPlace(s: State, q: Queue, c: nat, x: nat)
    requires Inv(s, q) && c < |s.local| && s.local[c].pc == Owning(Grant)
    requires x < |s.local|
    ensures q.succ[c] != Null
    ensures LocalOk(OwnStep(s, c, Proceed), x) && PlaceOk(OwnStep(s, c, Proceed), PassOn(s, q, c), x)
  {
    Context(s, q, c);
    Context(s, q, x);
  }

  lemma GrantKeepsAt(s: State, q: Queue, c: nat, x: nat)
    requires Inv(s, q) && c < |s.local| && s.local[c].pc == Owning(Grant)
    requires x < |s.local|
    ensures q.succ[c] != Null
    ensures LocalOk(OwnStep(s, c, Proceed), x) && CpuOk(OwnStep(s, c, Proceed), PassOn(s, q, c), x)
  {
    Context(s, q, c);
    Context(s, q, x);
    GrantKeepsPlace(s, q, c, x);
  }

  lemma GrantKeeps(s: State, q: Queue, c: nat)
    requires Inv(s, q) && c < |s.local| && s.local[c].pc == Owning(Grant)
    ensures q.succ[c] != Null
    ensures Inv(OwnStep(s, c, Proceed), PassOn(s, q, c))
  {
    Context(s, q, c);
    var s', q' := OwnStep(s, c, Proceed), PassOn(s, q, c);
    forall l: nat | l < |s.tail| ensures LockOk(s', q', l) && TailOk(s', l) { assert LockOk(s, q, l) && TailOk(s, l); }
    forall x: nat | x < |s.local| ensures LocalOk(s', x) && CpuOk(s', q', x) { GrantKeepsAt(s, q, c, x); }
  }

  lemma WaitNextKeeps(s: State, q: Queue, c: nat, w: WaitNextPc, own: bool) returns (q': Queue)
    requires Inv(s, q) && c < |s.local| && s.local[c].pc == InWait(w, own)
    ensures Inv(WaitNextStep(s, c, w, own), q')
  {
    Context(s, q, c);
    var s' := WaitNextStep(s, c, w, own);
    q' := q;
    if w == SwingTail && s.tail[s.local[c].lk] == EncodeCpu(c) {
      LeaveLastKeeps(s, q, c, s.local[c].oldCpu);
      q' := LeaveLast(s, q, c);
    } else if w == TakeNext && s.node[c].next != Null {
      TakeKeeps(s, q, c, if own then Owning(Grant) else Leaving(RelinkNext));
    } else {
      MoveKeeps(s, q, c, s'.local[c]);
    }
  }

  lemma EnterKeeps(s: State, q: Queue, c: nat) returns (q': Queue)
    requires Inv(s, q) && c < |s.local| && s.local[c].pc.Entering?
    ensures Inv(EnterStep(s, c), q')
  {
    Context(s, q, c);
    var s' := EnterStep(s, c);
    q' := q;
    if s.local[c].pc.enter.SwapTail? {
      SwapTailKeeps(s, q, c);
      q' := Join(s, q, c);
    } else {
      PrivateKeeps(s, q, c, s'.node[c], s'.local[c].pc);
    }
  }

  lemma WaitMoveKeeps(s: State, q: Queue, c: nat, me': Local)
    requires Inv(s, q) && c < |s.local| && s.local[c].pc.Waiting?
    requires me'.pc.Waiting? && me'.lk == s.local[c].lk && me'.next == s.local[c].next
    requires me'.oldCpu == s.local[c].oldCpu
    requires me'.prev == s.local[c].prev || me'.prev == s.node[c].prev
    ensures Inv(s.(local := s.local[c := me']), q)
  {
    Context(s, q, c);
    MoveKeeps(s, q, c, me');
  }

  lemma WaitKeeps(s: State, q: Queue, c: nat, choice: Choice)
    requires Inv(s, q) && c < |s.local| && s.local[c].pc.Waiting?
    ensures Inv(WaitStep(s, c, choice), q)
  {
    Context(s, q, c);
    var me, s' := s.local[c], WaitStep(s, c, choice);
    if s'.local[c].pc.Owning? {
      ClaimKeeps(s, q, c);
    } else if s'.local[c].pc.Leaving? {
      UnlinkPrevKeeps(s, q, c);
    } else {
      WaitMoveKeeps(s, q, c, s'.local[c]);
    }
  }

  lemma LeaveKeeps(s: State, q: Queue, c: nat) returns (q': Queue)
    requires Inv(s, q) && c < |s.local| && s.local[c].pc.Leaving?
    ensures Inv(LeaveStep(s, c), q')
  {
    Context(s, q, c);
    q' := q;
    match s.local[c].pc.leave
    case ReadPrevCpu => MoveKeeps(s, q, c, LeaveStep(s, c).local[c]);
    case LeaveWait(w) => q' := WaitNextKeeps(s, q, c, w, false);
    case RelinkNext => RelinkNextKeeps(s, q, c);
    case RelinkPrev =>
      RelinkPrevKeeps(s, q, c);
      q' := Unlink(s, q, c);
  }

  lemma OwnKeeps(s: State, q: Queue, c: nat, choice: Choice) returns (q': Queue)
    requires Inv(s, q) && c < |s.local| && s.local[c].pc.Owning?
    ensures Inv(OwnStep(s, c, choice), q')
  {
    Context(s, q, c);
    var s' := OwnStep(s, c, choice);
    q' := q;
    match s.local[c].pc.own
    case OwnWait(w) => q' := WaitNextKeeps(s, q, c, w, true);
    case Grant =>
      GrantKeeps(s, q, c);
      q' := PassOn(s, q, c);
    case Held => MoveKeeps(s, q, c, s'.local[c]);
    case UnlockFast =>
      if s.tail[s.local[c].lk] == EncodeCpu(c) {
        LeaveLastKeeps(s, q, c, Unlocked);
        q' := LeaveLast(s, q, c);
      } else {
        MoveKeeps(s, q, c, s'.local[c]);
      }
    case UnlockTake =>
      if s.node[c].next != Null {
        TakeKeeps(s, q, c, Owning(Grant));
      } else {
        MoveKeeps(s, q, c, s'.local[c]);
      }
  }

  lemma AskKeepsAt(s: State, q: Queue, c: nat, lk: nat, x: nat)
    requires Inv(s, q) && c < |s.local| && s.local[c].pc.Idle? && lk < |s.tail| && x < |s.local|
    ensures LocalOk(Step(s, c, Ask(lk)), x) && CpuOk(Step(s, c, Ask(lk)), q, x)
  {
    Context(s, q, c);
    Context(s, q, x);
  }

  lemma AskKeeps(s: State, q: Queue, c: nat, lk: nat)
    requires Inv(s, q) && c < |s.local| && s.local[c].pc.Idle? && lk < |s.tail|
    ensures Inv(Step(s, c, Ask(lk)), q)
  {
    Context(s, q, c);
    var s' := Step(s, c, Ask(lk));
    forall l: nat | l < |s.tail| ensures LockOk(s', q, l) && TailOk(s', l) { assert LockOk(s, q, l) && TailOk(s, l); }
    forall x: nat | x < |s.local| ensures LocalOk(s', x) && CpuOk(s', q, x) { AskKeepsAt(s, q, c, lk, x); }
  }

  /** The main step: whatever CPU moves and whatever it decides, the invariant survives. */
  lemma StepKeepsInv(s: State, q: Queue, c: nat, choice: Choice) returns (q': Queue)
    requires Inv(s, q) && c < |s.local|
    ensures Inv(Step(s, c, choice), q')
  {
    Context(s, q, c);
    q' := q;
    match s.local[c].pc
    case Idle => if choice.Ask? && choice.lk < |s.tail| { AskKeeps(s, q, c, choice.lk); }
    case Entering(_) => q' := EnterKeeps(s, q, c);
    case Linking(link) =>
      if link.LinkPrev? {
        LinkPrevKeeps(s, q, c);
      } else {
        PrivateKeeps(s, q, c, LinkStep(s, c).node[c], Linking(LinkPrev));
      }
    case Waiting(_) => WaitKeeps(s, q, c, choice);
    case Leaving(_) => q' := LeaveKeeps(s, q, c);
    case Owning(_) => q' := OwnKeeps(s, q, c, choice);
  }

  // ---------------------------------------------------------------------------
  // Whole runs
  // ---------------------------------------------------------------------------

  /** `t` follows `s` when some CPU performs one access. */
  ghost predicate Next(s: State, t: State) {
    WellFormed(s) && exists c: nat, choice :: c < |s.local| && t == Step(s, c, choice)
  }

  /** An interleaving of any length of any number of CPUs. */
  ghost predicate Run(run: seq<State>) {
    && |run| > 0
    && Init(run[0])
    && (forall i :: 0 <= i < |run| - 1 ==> Next(run[i], run[i + 1]))
  }

  lemma InitInv(s: State) returns (q: Queue)
    requires Init(s)
    ensures Inv(s, q)
  {
    var nobody := seq(|s.node|, _ => Null);
    var free := seq(|s.tail|, _ => Null);
    q := Queue(free, free, nobody, nobody);
    forall l: nat | l < |s.tail| ensures LockOk(s, q, l) && TailOk(s, l) {}
    forall x: nat | x < |s.local| ensures LocalOk(s, x) && CpuOk(s, q, x) {}
  }

  lemma {:induction false} RunKeepsInv(run: seq<State>, i: nat) returns (q: Queue)
    requires Run(run) && i < |run|
    ensures Inv(run[i], q)
  {
    if i == 0 {
      q := InitInv(run[0]);
    } else {
      var q0 := RunKeepsInv(run, i - 1);
      assert Next(run[i - 1], run[i - 1 + 1]);
      var c: nat, choice :| c < |run[i - 1].local| && run[i] == Step(run[i - 1], c, choice);
      q := StepKeepsInv(run[i - 1], q0, c, choice);
    }
  }

  /** Mutual exclusion: in every interleaving, two CPUs between a true-returning osq_lock and the
      end of their osq_unlock work on different locks. */
  lemma MutualExclusion(run: seq<State>, i: nat, a: nat, b: nat)
    requires Run(run) && i < |run| && a < |run[i].local| && b < |run[i].local|
    requires run[i].local[a].pc.Owning? && run[i].local[b].pc.Owning?
    requires run[i].local[a].lk == run[i].local[b].lk
    ensures a == b
  {
    var q := RunKeepsInv(run, i);
    assert CpuOk(run[i], q, a) && CpuOk(run[i], q, b);
  }

  /** A waiter past step A is never granted the lock: its locked flag is clear, and no unlock that
      has already chosen whom to grant has chosen it. */
  lemma CancelledNeverGranted(run: seq<State>, i: nat, c: nat, b: nat)
    requires Run(run) && i < |run| && c < |run[i].local| && b < |run[i].local|
    requires run[i].local[c].pc.Leaving?
    ensures c < |run[i].node| && !run[i].node[c].locked
    ensures run[i].local[b].pc == Owning(Grant) ==> run[i].local[b].next != c
  {
    var q := RunKeepsInv(run, i);
    assert CpuOk(run[i], q, c) && CpuOk(run[i], q, b);
  }

  /** First in line: owns the lock, or waits with its locked flag set and step A not passed. */
  ghost predicate HasGrant(s: State, l: nat, c: nat)
    requires |s.node| == |s.local| && c < |s.local|
  {
    && s.local[c].lk == l
    && (s.local[c].pc.Owning? || (s.local[c].pc.Waiting? && s.node[c].locked))
  }

  /** No grant is lost: whenever the tail is not OSQ_UNLOCKED_VAL, exactly one CPU owns the lock or
      holds the grant, and it has not left the queue. */
  lemma GrantIsNeverLost(run: seq<State>, i: nat, l: nat)
    requires Run(run) && i < |run| && l < |run[i].tail|
    ensures WellFormed(run[i])
    ensures run[i].tail[l] != Unlocked <==> exists c: nat :: c < |run[i].local| && HasGrant(run[i], l, c)
    ensures forall a: nat, b: nat | a < |run[i].local| && b < |run[i].local| ::
              HasGrant(run[i], l, a) && HasGrant(run[i], l, b) ==> a == b
  {
    var s := run[i];
    var q := RunKeepsInv(run, i);
    assert LockOk(s, q, l);
    forall c: nat | c < |s.local| && HasGrant(s, l, c) ensures q.head[l] == c {
      assert CpuOk(s, q, c);
    }
    if q.head[l] != Null {
      assert CpuOk(s, q, q.head[l]);
      assert HasGrant(s, l, q.head[l]);
    }
  }
}
