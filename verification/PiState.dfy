/** Priority inheritance on paper: who owns what, who waits for what, the two kinds of waiter trees
    of tests/locking/rtmutex.c as sorted lists, and what each elementary tree operation does.
    A task has at most one waiter, so a waiter is named by its task. */
module PiState {

  // ---------------------------------------------------------------------------
  // Sort keys
  // ---------------------------------------------------------------------------

  const MAX_RT_PRIO := 100
  const DEFAULT_PRIO := 120

  /** rt_waiter_node: a smaller prio is more urgent, deadline tasks have prio -1. */
  datatype Node = Node(prio: int, deadline: int)

  predicate DlPrio(prio: int) { prio < 0 }

  /** Deadline tasks share one prio, and the deadline of other tasks never counts. */
  predicate Normal(n: Node) { -1 <= n.prio && (DlPrio(n.prio) || n.deadline == 0) }

  type Key = n: Node | Normal(n) witness Node(DEFAULT_PRIO, 0)

  /** __waiter_prio and task_to_waiter_node. */
  function TaskKey(prio: int, deadline: int): Key
    requires -1 <= prio
  {
    if prio >= MAX_RT_PRIO then Node(DEFAULT_PRIO, 0)
    else Node(prio, if DlPrio(prio) then deadline else 0)
  }

  /** rt_waiter_node_less. */
  predicate Less(left: Node, right: Node) {
    if left.prio < right.prio then true
    else if DlPrio(left.prio) then left.deadline < right.deadline
    else false
  }

  /** rt_waiter_node_equal. */
  predicate Equal(left: Node, right: Node) {
    if left.prio != right.prio then false
    else if DlPrio(left.prio) then left.deadline == right.deadline
    else true
  }

  /** On the keys tasks can have, the comparators are one total order. */
  lemma KeysAreOrdered(a: Key, b: Key, c: Key)
    ensures Equal(a, b) <==> a == b
    ensures !(Less(a, b) && Less(b, a)) && (Less(a, b) || Less(b, a) || a == b)
    ensures Less(a, b) && Less(b, c) ==> Less(a, c)
  {
  }

  /** Which way it runs, in terms of what tasks are: earlier deadlines first, deadline tasks before
      all others, real-time tasks by their prio and before the rest, among whom there is no difference. */
  lemma KeyOrder(p: int, d: int, q: int, e: int)
    requires -1 <= p && -1 <= q
    ensures p == q == -1 ==> (Less(TaskKey(p, d), TaskKey(q, e)) <==> d < e)
    ensures p == -1 < q ==> Less(TaskKey(p, d), TaskKey(q, e)) && !Less(TaskKey(q, e), TaskKey(p, d))
    ensures 0 <= p < 100 && 0 <= q < 100 ==> (Less(TaskKey(p, d), TaskKey(q, e)) <==> p < q)
    ensures 0 <= p < 100 <= q ==> Less(TaskKey(p, d), TaskKey(q, e)) && !Less(TaskKey(q, e), TaskKey(p, d))
    ensures 100 <= p && 100 <= q ==> TaskKey(p, d) == TaskKey(q, e) && !Less(TaskKey(p, d), TaskKey(q, e))
  {
  }

  /** At least as urgent, read off the fields of two nodes. */
  predicate NoLater(a: Node, b: Node) {
    a.prio < b.prio || (a.prio == b.prio && (a.prio >= 0 || a.deadline <= b.deadline))
  }

  lemma CoversIsNoLater(a: Key, b: Key)
    ensures Covers(a, b) <==> NoLater(a, b)
    ensures Less(a, b) <==> !NoLater(b, a)
  {
  }

  /** The more urgent of two keys. */
  function Best(a: Key, b: Key): Key { if Less(b, a) then b else a }

  /** At least as urgent. */
  predicate Covers(a: Key, b: Key) { !Less(b, a) }

  // ---------------------------------------------------------------------------
  // Trees
  // ---------------------------------------------------------------------------

  type Task = nat

  predicate Valid(list: seq<Task>, keys: seq<Key>) {
    forall i :: 0 <= i < |list| ==> list[i] < |keys|
  }

  ghost predicate Sorted(list: seq<Task>, keys: seq<Key>) {
    && Valid(list, keys)
    && forall i, j :: 0 <= i < j < |list| ==> list[i] != list[j] && Covers(keys[list[i]], keys[list[j]])
  }

  /** rb_add_cached: behind its equals. */
  function Insert(list: seq<Task>, keys: seq<Key>, t: Task): (r: seq<Task>)
    requires Valid(list, keys) && t < |keys|
    ensures |r| == |list| + 1
  {
    if list == [] then [t]
    else if Less(keys[t], keys[list[0]]) then [t] + list
    else [list[0]] + Insert(list[1..], keys, t)
  }

  /** rb_erase_cached; nothing if the node is empty. */
  function Remove(list: seq<Task>, t: Task): seq<Task> {
    if list == [] then [] else if list[0] == t then list[1..] else [list[0]] + Remove(list[1..], t)
  }

  /** What putting `t` in front of a sorted list takes. */
  lemma SortedCons(t: Task, list: seq<Task>, keys: seq<Key>)
    requires Sorted(list, keys) && t < |keys|
    requires forall x :: x in list && x < |keys| ==> t != x && Covers(keys[t], keys[x])
    ensures Sorted([t] + list, keys)
  {
    var r := [t] + list;
    forall i, j | 0 <= i < j < |r| ensures r[i] != r[j] && Covers(keys[r[i]], keys[r[j]]) {
      assert r[j] == list[j - 1] && list[j - 1] in list;
      assert i > 0 ==> r[i] == list[i - 1];
    }
  }

  lemma SortedTail(list: seq<Task>, keys: seq<Key>)
    requires Sorted(list, keys) && list != []
    ensures Sorted(list[1..], keys) && list[0] < |keys| && list[0] !in list[1..]
    ensures forall x :: x in list[1..] ==> x < |keys| && Covers(keys[list[0]], keys[x])
    ensures forall x :: x in list <==> x == list[0] || x in list[1..]
  {
    assert list == [list[0]] + list[1..];
  }

  lemma {:induction false} InsertIs(list: seq<Task>, keys: seq<Key>, t: Task)
    requires Sorted(list, keys) && t < |keys| && t !in list
    ensures Sorted(Insert(list, keys, t), keys)
    ensures forall x :: x in Insert(list, keys, t) <==> x in list || x == t
    ensures Insert(list, keys, t)[0] == if list == [] || Less(keys[t], keys[list[0]]) then t else list[0]
  {
    if list != [] {
      SortedTail(list, keys);
      if Less(keys[t], keys[list[0]]) {
        SortedCons(t, list, keys);
      } else {
        InsertIs(list[1..], keys, t);
        SortedCons(list[0], Insert(list[1..], keys, t), keys);
      }
    }
  }

  lemma {:induction false} RemoveIs(list: seq<Task>, keys: seq<Key>, t: Task)
    requires Sorted(list, keys)
    ensures Sorted(Remove(list, t), keys)
    ensures forall x :: x in Remove(list, t) <==> x in list && x != t
    ensures list != [] && list[0] != t ==> Remove(list, t) != [] && Remove(list, t)[0] == list[0]
    ensures t !in list ==> Remove(list, t) == list
  {
    hide Sorted;
    if list != [] {
      SortedTail(list, keys);
      if list[0] != t {
        RemoveIs(list[1..], keys, t);
        SortedCons(list[0], Remove(list[1..], t), keys);
        assert list == [list[0]] + list[1..];
      }
    }
  }

  /** Keys of other tasks do not matter. */
  lemma SortedFrame(list: seq<Task>, keys: seq<Key>, keys': seq<Key>)
    requires Sorted(list, keys) && |keys'| == |keys| && forall x :: x in list && x < |keys| ==> keys'[x] == keys[x]
    ensures Sorted(list, keys')
  {
  }

  lemma SortedFacts(list: seq<Task>, keys: seq<Key>)
    requires Sorted(list, keys)
    ensures forall i :: 0 <= i < |list| ==> list[i] < |keys| && list[i] in list
    ensures forall i :: 0 <= i < |list| ==> Covers(keys[list[0]], keys[list[i]])
  {
  }

  // ---------------------------------------------------------------------------
  // The state
  // ---------------------------------------------------------------------------

  const None := -1

  /** Locks: owner and waiters. Tasks: the lock waited for, the pi_waiters tree, the task's own key
      and the effective one; and of its waiter the keys of both trees. */
  datatype Pi = Pi(owner: seq<int>, waiters: seq<seq<Task>>, blockedOn: seq<int>, piWaiters: seq<seq<Task>>,
                   own: seq<Key>, eff: seq<Key>, treeKey: seq<Key>, piKey: seq<Key>)

  predicate LockIn(p: Pi, l: int) { 0 <= l < |p.owner| }

  predicate TaskIn(p: Pi, t: int) { 0 <= t < |p.own| }

  ghost predicate Sizes(p: Pi) {
    && |p.waiters| == |p.owner|
    && |p.blockedOn| == |p.piWaiters| == |p.own| == |p.eff| == |p.treeKey| == |p.piKey|
    && (forall l :: LockIn(p, l) ==> p.owner[l] == None || TaskIn(p, p.owner[l]))
    && (forall t :: TaskIn(p, t) ==> p.blockedOn[t] == None || LockIn(p, p.blockedOn[t]))
  }

  ghost predicate Queued(p: Pi, l: nat)
    requires Sizes(p) && LockIn(p, l)
  {
    && Sorted(p.waiters[l], p.treeKey)
    && forall i :: 0 <= i < |p.waiters[l]| ==> p.blockedOn[p.waiters[l][i]] == l
  }

  ghost predicate Waits(p: Pi, t: nat)
    requires Sizes(p) && TaskIn(p, t)
  {
    p.blockedOn[t] != None ==> t in p.waiters[p.blockedOn[t]]
  }

  /** The waiters trees hold exactly the blocked tasks, sorted. */
  ghost predicate Trees(p: Pi) {
    && Sizes(p)
    && (forall l :: LockIn(p, l) ==> Queued(p, l))
    && (forall t :: TaskIn(p, t) ==> Waits(p, t))
  }

  /** The waiter of each lock that stands in its owner's pi_waiters tree; None while there is none. */
  type Tops = seq<int>

  /** `w` stands for some lock of `o`. */
  ghost predicate Represents(p: Pi, tops: Tops, o: nat, w: Task)
    requires |tops| == |p.owner|
  {
    exists l :: LockIn(p, l) && p.owner[l] == o && tops[l] == w
  }

  ghost predicate PiTree(p: Pi, tops: Tops, o: nat)
    requires Sizes(p) && |tops| == |p.owner| && TaskIn(p, o)
  {
    && Sorted(p.piWaiters[o], p.piKey)
    && forall w :: w in p.piWaiters[o] ==> Represents(p, tops, o, w)
  }

  ghost predicate Listed(p: Pi, tops: Tops, l: nat)
    requires Sizes(p) && |tops| == |p.owner| && LockIn(p, l)
  {
    p.owner[l] != None && tops[l] != None ==> tops[l] in p.piWaiters[p.owner[l]]
  }

  ghost predicate PiTrees(p: Pi, tops: Tops) {
    && Sizes(p) && |tops| == |p.owner|
    && (forall l :: LockIn(p, l) ==> tops[l] == None || TaskIn(p, tops[l]))
    && (forall l, m :: LockIn(p, l) && LockIn(p, m) && tops[l] == tops[m] != None ==> l == m)
    && (forall o :: TaskIn(p, o) ==> PiTree(p, tops, o))
    && (forall l :: LockIn(p, l) ==> Listed(p, tops, l))
  }

  function Top(p: Pi, l: nat): int
    requires l < |p.waiters|
  {
    if p.waiters[l] == [] then None else p.waiters[l][0]
  }

  ghost function TopsOf(p: Pi): Tops
    requires |p.waiters| == |p.owner|
  {
    seq(|p.owner|, (l: int) requires 0 <= l < |p.waiters| => Top(p, l))
  }

  /** Membership: every blocked task is in the tree of its lock, and the top waiter of every owned
      lock, and nothing else, is in the pi_waiters tree of the owner. */
  ghost predicate Shape(p: Pi) {
    Trees(p) && PiTrees(p, TopsOf(p))
  }

  // ---------------------------------------------------------------------------
  // Elementary operations
  // ---------------------------------------------------------------------------

  function Enqueue(p: Pi, l: nat, t: Task): Pi
    requires l < |p.waiters| && Valid(p.waiters[l], p.treeKey) && t < |p.treeKey|
  {
    p.(waiters := p.waiters[l := Insert(p.waiters[l], p.treeKey, t)])
  }

  function Dequeue(p: Pi, l: nat, t: Task): Pi
    requires l < |p.waiters|
  {
    p.(waiters := p.waiters[l := Remove(p.waiters[l], t)])
  }

  function EnqueuePi(p: Pi, o: nat, t: Task): Pi
    requires o < |p.piWaiters| && Valid(p.piWaiters[o], p.piKey) && t < |p.piKey|
  {
    p.(piWaiters := p.piWaiters[o := Insert(p.piWaiters[o], p.piKey, t)])
  }

  function DequeuePi(p: Pi, o: nat, t: Task): Pi
    requires o < |p.piWaiters|
  {
    p.(piWaiters := p.piWaiters[o := Remove(p.piWaiters[o], t)])
  }

  /** waiter_update_prio. */
  function UpdatePrio(p: Pi, t: Task): Pi
    requires t < |p.treeKey| && t < |p.eff|
  {
    p.(treeKey := p.treeKey[t := p.eff[t]])
  }

  /** waiter_clone_prio. */
  function ClonePrio(p: Pi, t: Task): Pi
    requires t < |p.treeKey| && t < |p.piKey|
  {
    p.(piKey := p.piKey[t := p.treeKey[t]])
  }

  /** rt_mutex_adjust_prio, with rt_mutex_setprio taking the more urgent of the task's own key and
      its top pi waiter's. */
  function AdjustPrio(p: Pi, o: nat): Pi
    requires o < |p.piWaiters| && o < |p.eff| && o < |p.own| && Valid(p.piWaiters[o], p.eff)
  {
    p.(eff := p.eff[o := if p.piWaiters[o] == [] then p.own[o] else Best(p.own[o], p.eff[p.piWaiters[o][0]])])
  }

  function SetBlockedOn(p: Pi, t: Task, l: int): Pi
    requires t < |p.blockedOn|
  {
    p.(blockedOn := p.blockedOn[t := l])
  }

  function SetOwner(p: Pi, l: nat, o: int): Pi
    requires l < |p.owner|
  {
    p.(owner := p.owner[l := o])
  }

  // ---------------------------------------------------------------------------
  // The waiters trees
  // ---------------------------------------------------------------------------

  lemma QueuedFrame(p: Pi, p': Pi, l: nat, t: nat)
    requires Sizes(p) && Sizes(p') && LockIn(p, l) && LockIn(p', l) && Queued(p, l)
    requires p'.waiters[l] == p.waiters[l] && t !in p.waiters[l] && |p'.own| == |p.own|
    requires forall x :: TaskIn(p, x) && x != t ==> p'.blockedOn[x] == p.blockedOn[x] && p'.treeKey[x] == p.treeKey[x]
    ensures Queued(p', l)
  {
    SortedFrame(p.waiters[l], p.treeKey, p'.treeKey);
  }

  /** A task blocks: its waiter gets the task's key and enters the tree. */
  function Block(p: Pi, l: nat, t: Task): Pi
    requires Trees(p) && LockIn(p, l) && TaskIn(p, t)
  {
    assert Queued(p, l);
    SetBlockedOn(Enqueue(UpdatePrio(p, t), l, t), t, l)
  }

  lemma BlockKeepsTrees(p: Pi, l: nat, t: Task)
    requires Trees(p) && LockIn(p, l) && TaskIn(p, t) && p.blockedOn[t] == None
    ensures Trees(Block(p, l, t))
    ensures Top(Block(p, l, t), l) == if Top(p, l) == None || Less(p.eff[t], p.treeKey[Top(p, l)]) then t else Top(p, l)
  {
    hide Sorted, Insert;
    var p' := Block(p, l, t);
    NotQueued(p, t);
    assert Queued(p, l);
    SortedFrame(p.waiters[l], p.treeKey, p'.treeKey);
    InsertIs(p.waiters[l], p'.treeKey, t);
    SortedFacts(p.waiters[l], p.treeKey);
    SortedFacts(p'.waiters[l], p'.treeKey);
    forall m | LockIn(p', m) ensures Queued(p', m) {
      if m != l {
        assert Queued(p, m);
        QueuedFrame(p, p', m, t);
      } else {
        forall i | 0 <= i < |p'.waiters[l]| ensures p'.blockedOn[p'.waiters[l][i]] == l {
          assert p'.waiters[l][i] in p'.waiters[l];
        }
      }
    }
    forall x | TaskIn(p', x) ensures Waits(p', x) {
      assert Waits(p, x);
    }
  }

  /** A task that is not blocked is in no tree. */
  lemma NotQueued(p: Pi, t: Task)
    requires Trees(p) && TaskIn(p, t)
    ensures forall m :: LockIn(p, m) && p.blockedOn[t] != m ==> t !in p.waiters[m]
  {
    forall m | LockIn(p, m) && p.blockedOn[t] != m ensures t !in p.waiters[m] {
      assert Queued(p, m);
    }
  }

  /** A blocked task's waiter gets the task's current key and a new place in the tree. */
  function Requeue(p: Pi, l: nat, t: Task): Pi
    requires Trees(p) && LockIn(p, l) && TaskIn(p, t)
  {
    RequeueValid(p, l, t);
    Enqueue(UpdatePrio(Dequeue(p, l, t), t), l, t)
  }

  lemma RequeueValid(p: Pi, l: nat, t: Task)
    requires Trees(p) && LockIn(p, l) && TaskIn(p, t)
    ensures Valid(Remove(p.waiters[l], t), p.treeKey)
  {
    assert Queued(p, l);
    RemoveIs(p.waiters[l], p.treeKey, t);
  }

  lemma RequeueKeepsTrees(p: Pi, l: nat, t: Task)
    requires Trees(p) && LockIn(p, l) && TaskIn(p, t) && p.blockedOn[t] == l
    ensures Trees(Requeue(p, l, t)) && Top(Requeue(p, l, t), l) != None
    ensures var p' := Requeue(p, l, t);
            Top(p', l) != t && Top(p, l) != t ==> Top(p', l) == Top(p, l)
    ensures Top(p, l) == t && Less(p.eff[t], p.treeKey[t]) ==> Top(Requeue(p, l, t), l) == t
    ensures Top(p, l) != None && Top(Requeue(p, l, t), l) == t ==>
              Top(p, l) == t || Less(p.eff[t], p.treeKey[Top(p, l)])
  {
    hide Sorted, Insert, Remove;
    var p' := Requeue(p, l, t);
    NotQueued(p, t);
    assert Queued(p, l) && Waits(p, t);
    var rest := Remove(p.waiters[l], t);
    RemoveIs(p.waiters[l], p.treeKey, t);
    SortedFacts(p.waiters[l], p.treeKey);
    SortedFrame(rest, p.treeKey, p'.treeKey);
    InsertIs(rest, p'.treeKey, t);
    SortedFacts(rest, p.treeKey);
    SortedFacts(p'.waiters[l], p'.treeKey);
    forall m | LockIn(p', m) ensures Queued(p', m) {
      if m != l {
        assert Queued(p, m);
        QueuedFrame(p, p', m, t);
      } else {
        forall i | 0 <= i < |p'.waiters[l]| ensures p'.blockedOn[p'.waiters[l][i]] == l {
          assert p'.waiters[l][i] in p'.waiters[l];
        }
      }
    }
    forall x | TaskIn(p', x) ensures Waits(p', x) {
      assert Waits(p, x);
    }
  }

  /** A task stops waiting. */
  function Unblock(p: Pi, l: nat, t: Task): Pi
    requires Sizes(p) && LockIn(p, l) && TaskIn(p, t)
  {
    SetBlockedOn(Dequeue(p, l, t), t, None)
  }

  lemma UnblockKeepsTrees(p: Pi, l: nat, t: Task)
    requires Trees(p) && LockIn(p, l) && TaskIn(p, t) && p.blockedOn[t] == l
    ensures Trees(Unblock(p, l, t))
    ensures Top(p, l) != t ==> Top(Unblock(p, l, t), l) == Top(p, l)
    ensures forall x :: x in Unblock(p, l, t).waiters[l] ==> x != t
  {
    hide Sorted, Remove;
    var p' := Unblock(p, l, t);
    NotQueued(p, t);
    assert Queued(p, l) && Waits(p, t);
    RemoveIs(p.waiters[l], p.treeKey, t);
    SortedFacts(p'.waiters[l], p'.treeKey);
    SortedFacts(p.waiters[l], p.treeKey);
    forall m | LockIn(p', m) ensures Queued(p', m) {
      if m != l {
        assert Queued(p, m);
        QueuedFrame(p, p', m, t);
      }
    }
    forall x | TaskIn(p', x) ensures Waits(p', x) {
      assert Waits(p, x);
    }
  }

  // ---------------------------------------------------------------------------
  // The pi_waiters trees
  // ---------------------------------------------------------------------------

  lemma PiTreeFrame(p: Pi, p': Pi, tops: Tops, tops': Tops, o: nat, l: nat)
    requires Sizes(p) && Sizes(p') && |tops| == |tops'| == |p.owner| == |p'.owner| && |p.own| == |p'.own|
    requires TaskIn(p, o) && PiTree(p, tops, o) && p'.piWaiters[o] == p.piWaiters[o] && p'.piKey == p.piKey
    requires forall m :: LockIn(p, m) && m != l ==> p'.owner[m] == p.owner[m] && tops'[m] == tops[m]
    requires LockIn(p, l) && (p.owner[l] != o || tops[l] == None || (tops'[l] == tops[l] && p'.owner[l] == p.owner[l]))
    requires forall m :: LockIn(p, m) ==> tops[m] == None || TaskIn(p, tops[m])
    ensures PiTree(p', tops', o)
  {
    forall w | w in p'.piWaiters[o] ensures Represents(p', tops', o, w) {
      assert Represents(p, tops, o, w);
      var m :| LockIn(p, m) && p.owner[m] == o && tops[m] == w;
      assert LockIn(p', m) && p'.owner[m] == o && tops'[m] == w;
    }
  }

  lemma DequeuePiKeeps(p: Pi, tops: Tops, l: nat)
    requires PiTrees(p, tops) && LockIn(p, l) && p.owner[l] != None && tops[l] != None
    ensures PiTrees(DequeuePi(p, p.owner[l], tops[l]), tops[l := None])
  {
    hide Sorted, Remove;
    var o, w := p.owner[l], tops[l];
    var p', tops' := DequeuePi(p, o, w), tops[l := None];
    assert PiTree(p, tops, o);
    RemoveIs(p.piWaiters[o], p.piKey, w);
    forall x | TaskIn(p', x) ensures PiTree(p', tops', x) {
      assert PiTree(p, tops, x);
      if x != o {
        PiTreeFrame(p, p', tops, tops', x, l);
      } else {
        forall y | y in p'.piWaiters[o] ensures Represents(p', tops', o, y) {
          assert Represents(p, tops, o, y);
          var m :| LockIn(p, m) && p.owner[m] == o && tops[m] == y;
          assert LockIn(p', m) && p'.owner[m] == o && tops'[m] == y;
        }
      }
    }
    forall m | LockIn(p', m) ensures Listed(p', tops', m) {
      assert Listed(p, tops, m);
    }
  }

  lemma EnqueuePiKeeps(p: Pi, tops: Tops, l: nat, w: Task)
    requires PiTrees(p, tops) && LockIn(p, l) && p.owner[l] != None && tops[l] == None && TaskIn(p, w)
    requires forall m :: LockIn(p, m) ==> tops[m] != w
    ensures Valid(p.piWaiters[p.owner[l]], p.piKey)
    ensures PiTrees(EnqueuePi(p, p.owner[l], w), tops[l := w])
    ensures var o := p.owner[l];
            EnqueuePi(p, o, w).piWaiters[o][0] ==
              if p.piWaiters[o] == [] || Less(p.piKey[w], p.piKey[p.piWaiters[o][0]]) then w else p.piWaiters[o][0]
  {
    hide Sorted, Insert;
    var o := p.owner[l];
    assert PiTree(p, tops, o);
    SortedFacts(p.piWaiters[o], p.piKey);
    var p', tops' := EnqueuePi(p, o, w), tops[l := w];
    NotInPiTree(p, tops, o, w);
    InsertIs(p.piWaiters[o], p.piKey, w);
    forall x | TaskIn(p', x) ensures PiTree(p', tops', x) {
      assert PiTree(p, tops, x);
      if x != o {
        PiTreeFrame(p, p', tops, tops', x, l);
      } else {
        forall y | y in p'.piWaiters[o] ensures Represents(p', tops', o, y) {
          if y == w {
            assert LockIn(p', l) && p'.owner[l] == o && tops'[l] == w;
          } else {
            assert Represents(p, tops, o, y);
            var m :| LockIn(p, m) && p.owner[m] == o && tops[m] == y;
            assert LockIn(p', m) && p'.owner[m] == o && tops'[m] == y;
          }
        }
      }
    }
    forall m | LockIn(p', m) ensures Listed(p', tops', m) {
      assert Listed(p, tops, m);
    }
  }

  lemma NotInPiTree(p: Pi, tops: Tops, o: nat, w: Task)
    requires PiTrees(p, tops) && TaskIn(p, o) && forall m :: LockIn(p, m) ==> tops[m] != w
    ensures w !in p.piWaiters[o]
  {
    assert PiTree(p, tops, o);
    assert w in p.piWaiters[o] ==> Represents(p, tops, o, w);
  }

  /** The pi_waiters trees do not depend on the waiters trees, nor on the keys of tasks outside them. */
  lemma PiTreesFrame(p: Pi, p': Pi, tops: Tops, t: Task)
    requires PiTrees(p, tops) && Sizes(p') && |p'.own| == |p.own|
    requires p'.owner == p.owner && p'.piWaiters == p.piWaiters
    requires p'.piKey == p.piKey
             || (TaskIn(p, t) && (forall m :: LockIn(p, m) ==> tops[m] != t)
                 && forall x :: TaskIn(p, x) && x != t ==> p'.piKey[x] == p.piKey[x])
    ensures PiTrees(p', tops)
  {
    forall o | TaskIn(p', o) ensures PiTree(p', tops, o) {
      assert PiTree(p, tops, o);
      if p'.piKey != p.piKey {
        NotInPiTree(p, tops, o, t);
        SortedFrame(p.piWaiters[o], p.piKey, p'.piKey);
      }
      forall w | w in p'.piWaiters[o] ensures Represents(p', tops, o, w) {
        assert Represents(p, tops, o, w);
      }
    }
    forall l | LockIn(p', l) ensures Listed(p', tops, l) {
      assert Listed(p, tops, l);
    }
  }

  /** Tops belong to their locks. */
  lemma TopIsBlocked(p: Pi, l: nat)
    requires Trees(p) && LockIn(p, l) && Top(p, l) != None
    ensures TaskIn(p, Top(p, l)) && p.blockedOn[Top(p, l)] == l
  {
    assert Queued(p, l);
    SortedFacts(p.waiters[l], p.treeKey);
  }

  // ---------------------------------------------------------------------------
  // Replacing a top waiter
  // ---------------------------------------------------------------------------

  lemma {:induction false} RemoveValid(list: seq<Task>, keys: seq<Key>, t: Task)
    requires Valid(list, keys)
    ensures Valid(Remove(list, t), keys)
  {
    if list != [] && list[0] != t {
      RemoveValid(list[1..], keys, t);
    }
  }

  lemma {:induction false} InsertValid(list: seq<Task>, keys: seq<Key>, t: Task)
    requires Valid(list, keys) && t < |keys|
    ensures Valid(Insert(list, keys, t), keys)
  {
    if list != [] && !Less(keys[t], keys[list[0]]) {
      InsertValid(list[1..], keys, t);
    }
  }

  /** The owner's pi_waiters tree gets `t`, with a fresh key, for `stale`. */
  function Swapped(p: Pi, o: nat, stale: Task, t: Task): (p': Pi)
    requires Sizes(p) && TaskIn(p, o) && TaskIn(p, t) && Valid(p.piWaiters[o], p.piKey)
    ensures Sizes(p') && |p'.own| == |p.own| && Valid(p'.piWaiters[o], p'.eff)
  {
    RemoveValid(p.piWaiters[o], p.piKey, stale);
    var p2 := ClonePrio(DequeuePi(p, o, stale), t);
    InsertValid(p2.piWaiters[o], p2.piKey, t);
    EnqueuePi(p2, o, t)
  }

  /** And the owner's priority follows. */
  function Replace(p: Pi, o: nat, stale: Task, t: Task): Pi
    requires Sizes(p) && TaskIn(p, o) && TaskIn(p, t) && Valid(p.piWaiters[o], p.piKey)
  {
    AdjustPrio(Swapped(p, o, stale, t), o)
  }

  /** `stale` stood in the tree for `l`, or no one did and there is nothing to take out. */
  ghost predicate Stale(p: Pi, l: nat, rep: int, stale: Task, t: Task)
    requires |p.waiters| == |p.owner| && l < |p.owner|
  {
    PiTrees(p, TopsOf(p)[l := rep]) && (rep == stale || (rep == None && stale == t))
  }

  lemma SwappedKeepsShape(p: Pi, l: nat, rep: int, stale: Task, t: Task)
    requires Trees(p) && LockIn(p, l) && p.owner[l] != None && Top(p, l) == t && Stale(p, l, rep, stale, t)
    ensures TaskIn(p, t) && Valid(p.piWaiters[p.owner[l]], p.piKey)
    ensures Shape(Swapped(p, p.owner[l], stale, t))
    ensures var o := p.owner[l]; var p' := Swapped(p, o, stale, t); var rest := Remove(p.piWaiters[o], stale);
            p'.piWaiters[o] != [] && Valid(rest, p.piKey) && t !in rest
            && p'.piWaiters[o][0] == if rest == [] || Less(p.treeKey[t], p.piKey[rest[0]]) then t else rest[0]
  {
    hide Sorted, Insert, Remove, PiTrees, Trees;
    TreesAreSized(p);
    var o, tops := p.owner[l], TopsOf(p)[l := rep];
    TopIsBlocked(p, l);
    PiTreeValid(p, tops, o);
    RemoveValid(p.piWaiters[o], p.piKey, stale);
    var p1 := DequeuePi(p, o, stale);
    StaleGone(p, l, rep, stale, t);
    NotAnotherTop(p, l, t);
    var tops1 := tops[l := None];
    assert tops1 == TopsOf(p)[l := None];
    var p2 := ClonePrio(p1, t);
    PiTreesFrame(p1, p2, tops1, t);
    NotInPiTree(p1, tops1, o, t);
    EnqueuePiKeeps(p2, tops1, l, t);
    var p3 := EnqueuePi(p2, o, t);
    assert tops1[l := t] == TopsOf(p3);
    TreesFrame(p, p3);
  }

  lemma TreesAreSized(p: Pi)
    requires Trees(p)
    ensures Sizes(p)
  {
  }

  lemma PiTreeValid(p: Pi, tops: Tops, o: nat)
    requires PiTrees(p, tops) && TaskIn(p, o)
    ensures Valid(p.piWaiters[o], p.piKey)
  {
    assert PiTree(p, tops, o);
  }

  lemma StaleGone(p: Pi, l: nat, rep: int, stale: Task, t: Task)
    requires Trees(p) && LockIn(p, l) && p.owner[l] != None && Top(p, l) == t && Stale(p, l, rep, stale, t)
    ensures PiTrees(DequeuePi(p, p.owner[l], stale), TopsOf(p)[l := None])
  {
    var tops := TopsOf(p)[l := rep];
    assert tops[l := None] == TopsOf(p)[l := None];
    if rep == stale {
      DequeuePiKeeps(p, tops, l);
    } else {
      NotAnotherTop(p, l, t);
      NotInPiTree(p, tops, p.owner[l], t);
      assert PiTree(p, tops, p.owner[l]);
      RemoveIs(p.piWaiters[p.owner[l]], p.piKey, t);
      assert DequeuePi(p, p.owner[l], stale) == p;
    }
  }

  lemma NotAnotherTop(p: Pi, l: nat, t: Task)
    requires Trees(p) && LockIn(p, l) && Top(p, l) == t
    ensures forall m :: LockIn(p, m) && m != l ==> TopsOf(p)[m] != t
  {
    TopIsBlocked(p, l);
    forall m | LockIn(p, m) && m != l ensures TopsOf(p)[m] != t {
      assert Top(p, m) != None ==> Queued(p, m) && p.waiters[m][0] in p.waiters[m];
    }
  }

  lemma TreesFrame(p: Pi, p': Pi)
    requires Trees(p) && Sizes(p') && |p'.own| == |p.own| && |p'.owner| == |p.owner|
    requires p'.waiters == p.waiters && p'.blockedOn == p.blockedOn && p'.treeKey == p.treeKey
    ensures Trees(p')
  {
    forall l | LockIn(p', l) ensures Queued(p', l) {
      assert Queued(p, l);
    }
    forall t | TaskIn(p', t) ensures Waits(p', t) {
      assert Waits(p, t);
    }
  }

  // ---------------------------------------------------------------------------
  // Boosting
  // ---------------------------------------------------------------------------

  /** A blocked task's waiter carries the task's priority. */
  ghost predicate KeyFresh(p: Pi, t: nat)
    requires Sizes(p) && TaskIn(p, t)
  {
    p.blockedOn[t] != None ==> p.treeKey[t] == p.eff[t]
  }

  /** The top waiter of an owned lock carries the same key in the owner's tree. */
  ghost predicate PiKeyFresh(p: Pi, l: nat)
    requires Sizes(p) && LockIn(p, l)
  {
    p.owner[l] != None && Top(p, l) != None && TaskIn(p, Top(p, l)) ==> p.piKey[Top(p, l)] == p.treeKey[Top(p, l)]
  }

  /** The task's own key, or its top pi waiter's if that is more urgent. */
  function Donated(p: Pi, o: nat): Key
    requires Sizes(p) && TaskIn(p, o)
  {
    if p.piWaiters[o] == [] || !TaskIn(p, p.piWaiters[o][0]) then p.own[o]
    else Best(p.own[o], p.piKey[p.piWaiters[o][0]])
  }

  ghost predicate Inherits(p: Pi, o: nat)
    requires Sizes(p) && TaskIn(p, o)
  {
    p.eff[o] == Donated(p, o)
  }

  /** All keys are right, except perhaps that of the waiter of `but`. */
  ghost predicate Keys(p: Pi, but: int) {
    && Sizes(p)
    && (forall t :: TaskIn(p, t) && t != but ==> KeyFresh(p, t))
    && (forall l :: LockIn(p, l) ==> PiKeyFresh(p, l))
    && (forall o :: TaskIn(p, o) ==> Inherits(p, o))
  }

  /** Priority inheritance is in full effect. */
  ghost predicate Boosted(p: Pi) { Shape(p) && Keys(p, None) }

  /** Every lock is ready but `l`, whose new top waiter is `t`. */
  ghost predicate Swapping(p: Pi, l: nat, rep: int, stale: Task, t: Task) {
    && Trees(p) && LockIn(p, l) && p.owner[l] != None && Top(p, l) == t && Stale(p, l, rep, stale, t)
    && (forall x :: TaskIn(p, x) ==> KeyFresh(p, x))
    && (forall m :: LockIn(p, m) && m != l ==> PiKeyFresh(p, m))
    && (forall o :: TaskIn(p, o) ==> Inherits(p, o))
    && TaskIn(p, stale)
  }

  /** The same, and `t` is at least as urgent as what stood there. */
  ghost predicate Pushing(p: Pi, l: nat, rep: int, stale: Task, t: Task) {
    Swapping(p, l, rep, stale, t) && (rep != None ==> Covers(p.treeKey[t], p.piKey[stale]))
  }

  /** The members of the tree that stay carry the priority of their tasks. */
  lemma OthersFresh(p: Pi, l: nat, rep: int, stale: Task, t: Task, w: Task)
    requires Swapping(p, l, rep, stale, t) && w in p.piWaiters[p.owner[l]] && w != stale
    ensures TaskIn(p, w) && p.piKey[w] == p.treeKey[w] == p.eff[w] && w != t
  {
    var o, tops := p.owner[l], TopsOf(p)[l := rep];
    NotAnotherTop(p, l, t);
    assert PiTree(p, tops, o) && Represents(p, tops, o, w);
    var m :| LockIn(p, m) && p.owner[m] == o && tops[m] == w;
    TopIsBlocked(p, m);
    assert PiKeyFresh(p, m) && KeyFresh(p, w);
  }

  /** What is left of the tree: its first member, against the old first one. */
  lemma RestOfTree(p: Pi, l: nat, rep: int, stale: Task, t: Task)
    requires Swapping(p, l, rep, stale, t)
    ensures var list := p.piWaiters[p.owner[l]]; var rest := Remove(list, stale);
            && Valid(list, p.piKey) && Valid(rest, p.piKey)
            && (rest != [] ==> rest[0] in list && rest[0] != stale && list != [])
            && (rest != [] ==> Covers(p.piKey[list[0]], p.piKey[rest[0]]))
            && (list != [] && list[0] != stale ==> rest != [] && rest[0] == list[0])
            && (list != [] && list[0] == stale ==> rep == stale)
  {
    var o, tops := p.owner[l], TopsOf(p)[l := rep];
    var list, rest := p.piWaiters[o], Remove(p.piWaiters[o], stale);
    assert PiTree(p, tops, o);
    RemoveIs(list, p.piKey, stale);
    SortedFacts(list, p.piKey);
    SortedFacts(rest, p.piKey);
    if rest != [] {
      assert rest[0] in list;
    }
    if rep != stale {
      NotAnotherTop(p, l, t);
      NotInPiTree(p, tops, o, t);
    }
  }

  /** The owner gets at least as urgent; and if more urgent, then by `t`. */
  lemma MoreUrgent(p: Pi, l: nat, rep: int, stale: Task, t: Task)
    requires Pushing(p, l, rep, stale, t)
    ensures TaskIn(p, t) && Valid(p.piWaiters[p.owner[l]], p.piKey)
    ensures var o := p.owner[l]; var s := Swapped(p, o, stale, t);
            && Covers(Donated(s, o), p.eff[o])
            && (Donated(s, o) != p.eff[o] ==> s.piWaiters[o][0] == t)
  {
    hide Sorted, Insert, Remove, PiTrees, Trees, Shape;
    TreesAreSized(p);
    var o := p.owner[l];
    var rest := Remove(p.piWaiters[o], stale);
    SwappedKeepsShape(p, l, rep, stale, t);
    RestOfTree(p, l, rep, stale, t);
    assert Inherits(p, o);
    if rest != [] {
      OthersFresh(p, l, rep, stale, t, rest[0]);
    }
  }

  /** The first member of the new tree carries the priority of its task. */
  lemma HeadIsFresh(p: Pi, l: nat, rep: int, stale: Task, t: Task)
    requires Swapping(p, l, rep, stale, t)
    ensures TaskIn(p, t) && Valid(p.piWaiters[p.owner[l]], p.piKey)
    ensures var o := p.owner[l]; var s := Swapped(p, o, stale, t);
            s.piWaiters[o] != [] && TaskIn(s, s.piWaiters[o][0])
            && s.eff[s.piWaiters[o][0]] == s.piKey[s.piWaiters[o][0]]
    ensures var o := p.owner[l]; Replace(p, o, stale, t).eff == p.eff[o := Donated(Swapped(p, o, stale, t), o)]
  {
    hide Sorted, Insert, Remove, PiTrees, Trees, Shape;
    TreesAreSized(p);
    var o := p.owner[l];
    var rest := Remove(p.piWaiters[o], stale);
    SwappedKeepsShape(p, l, rep, stale, t);
    RestOfTree(p, l, rep, stale, t);
    TopIsBlocked(p, l);
    assert KeyFresh(p, t);
    if rest != [] {
      OthersFresh(p, l, rep, stale, t, rest[0]);
    }
  }

  lemma PushedShape(p: Pi, l: nat, rep: int, stale: Task, t: Task)
    requires Swapping(p, l, rep, stale, t)
    ensures TaskIn(p, t) && Valid(p.piWaiters[p.owner[l]], p.piKey)
    ensures var p' := Replace(p, p.owner[l], stale, t);
            && Shape(p') && p'.owner == p.owner && p'.blockedOn == p.blockedOn && p'.waiters == p.waiters
            && p'.treeKey == p.treeKey && p'.own == p.own && p'.piKey == p.piKey[t := p.treeKey[t]]
  {
    hide Sorted, Insert, Remove, PiTrees, Trees;
    TreesAreSized(p);
    var o := p.owner[l];
    SwappedKeepsShape(p, l, rep, stale, t);
    ShapeFrame(Swapped(p, o, stale, t), Replace(p, o, stale, t));
  }

  /** Nothing structural depends on the effective priorities. */
  lemma ShapeFrame(p: Pi, p': Pi)
    requires Shape(p) && |p'.eff| == |p.eff| && p' == p.(eff := p'.eff)
    ensures Shape(p')
  {
    assert Sizes(p');
    TreesFrame(p, p');
    PiTreesFrame(p, p', TopsOf(p), 0);
    assert TopsOf(p') == TopsOf(p);
  }

  /** Trees other than the owner's keep their first member, and its key. */
  lemma OtherTreesInherit(p: Pi, l: nat, rep: int, stale: Task, t: Task, x: nat)
    requires Swapping(p, l, rep, stale, t) && TaskIn(p, x) && x != p.owner[l]
    ensures t !in p.piWaiters[x]
  {
    NotAnotherTop(p, l, t);
    var tops := TopsOf(p)[l := rep];
    assert PiTree(p, tops, x);
    assert t in p.piWaiters[x] ==> Represents(p, tops, x, t);
  }

  /** After the exchange all keys are right, but for the waiter of the owner. */
  lemma SwappedIsFresh(p: Pi, l: nat, rep: int, stale: Task, t: Task)
    requires Swapping(p, l, rep, stale, t)
    ensures TaskIn(p, t) && Valid(p.piWaiters[p.owner[l]], p.piKey)
    ensures var o := p.owner[l]; var p' := Replace(p, o, stale, t); Shape(p') && Keys(p', o)
  {
    hide Sorted, Insert, Remove, PiTrees, Trees, Donated, Shape;
    TreesAreSized(p);
    var o := p.owner[l];
    HeadIsFresh(p, l, rep, stale, t);
    PushedShape(p, l, rep, stale, t);
    var s, p' := Swapped(p, o, stale, t), Replace(p, o, stale, t);
    assert p'.piWaiters == s.piWaiters && p'.piKey == s.piKey && p'.eff == p.eff[o := Donated(s, o)];
    NotAnotherTop(p, l, t);
    forall x | TaskIn(p', x) ensures Inherits(p', x) {
      if x != o {
        OtherTreesInherit(p, l, rep, stale, t, x);
        assert Inherits(p, x);
        DonatedFrame(p, p', x, t);
      } else {
        DonatedFrame(s, p', o, t);
      }
    }
    forall m | LockIn(p', m) ensures PiKeyFresh(p', m) {
      if m != l {
        assert PiKeyFresh(p, m) && TopsOf(p)[m] != t;
      }
    }
    forall x | TaskIn(p', x) && x != o ensures KeyFresh(p', x) {
      assert KeyFresh(p, x);
    }
  }

  /** When a more urgent waiter comes to the top, the waiter of the owner may be behind the owner's
      priority; in that case it is `t` that the owner inherits from. */
  lemma Pushed(p: Pi, l: nat, rep: int, stale: Task, t: Task)
    requires Pushing(p, l, rep, stale, t)
    ensures TaskIn(p, t) && Valid(p.piWaiters[p.owner[l]], p.piKey)
    ensures var o := p.owner[l]; var p' := Replace(p, o, stale, t);
            && Shape(p') && Keys(p', o)
            && (KeyFresh(p', o) || (Less(p'.eff[o], p'.treeKey[o]) && p'.piWaiters[o] != [] && p'.piWaiters[o][0] == t))
  {
    hide Sorted, Insert, Remove, PiTrees, Trees, Shape, Keys, Inherits, PiKeyFresh;
    TreesAreSized(p);
    var o := p.owner[l];
    SwappedIsFresh(p, l, rep, stale, t);
    PushedShape(p, l, rep, stale, t);
    HeadIsFresh(p, l, rep, stale, t);
    MoreUrgent(p, l, rep, stale, t);
    assert KeyFresh(p, o);
  }

  lemma DonatedFrame(p: Pi, p': Pi, o: nat, t: Task)
    requires Sizes(p) && Sizes(p') && TaskIn(p, o) && |p'.own| == |p.own|
    requires p'.own == p.own && p'.piWaiters[o] == p.piWaiters[o]
    requires p'.piKey == p.piKey
             || (t !in p.piWaiters[o] && forall x :: TaskIn(p, x) && x != t ==> p'.piKey[x] == p.piKey[x])
    ensures Donated(p', o) == Donated(p, o)
  {
    assert p.piWaiters[o] != [] ==> p.piWaiters[o][0] in p.piWaiters[o];
  }

  lemma ReplaceKeepsShape(p: Pi, l: nat, rep: int, stale: Task, t: Task)
    requires Trees(p) && LockIn(p, l) && p.owner[l] != None && Top(p, l) == t && Stale(p, l, rep, stale, t)
    ensures TaskIn(p, t) && Valid(p.piWaiters[p.owner[l]], p.piKey) && Shape(Replace(p, p.owner[l], stale, t))
  {
    hide Sorted, Insert, Remove, PiTrees, Trees;
    TreesAreSized(p);
    SwappedKeepsShape(p, l, rep, stale, t);
    ShapeFrame(Swapped(p, p.owner[l], stale, t), Replace(p, p.owner[l], stale, t));
  }

  /** Requeuing a waiter changes the trees of its own lock only. */
  lemma RequeueTops(p: Pi, l: nat, t: Task)
    requires Trees(p) && LockIn(p, l) && TaskIn(p, t) && p.blockedOn[t] == l
    ensures var p1 := Requeue(p, l, t);
            TopsOf(p1) == TopsOf(p)[l := Top(p1, l)] && TopsOf(p1)[l := Top(p, l)] == TopsOf(p)
    ensures Top(p, l) == Top(Requeue(p, l, t), l) ==> TopsOf(Requeue(p, l, t)) == TopsOf(p)
  {
    var p1 := Requeue(p, l, t);
    assert forall m :: LockIn(p, m) && m != l ==> Top(p1, m) == Top(p, m);
    assert Top(p, l) == Top(p1, l) ==> TopsOf(p1) == TopsOf(p);
  }

  lemma NotAnotherTopIn(p: Pi, tops: Tops, l: nat)
    requires Trees(p) && LockIn(p, l) && Top(p, l) != None && |tops| == |p.owner| && TopsOf(p) == tops[l := Top(p, l)]
    ensures forall m :: LockIn(p, m) && m != l ==> tops[m] != Top(p, l)
  {
    NotAnotherTop(p, l, Top(p, l));
    forall m | LockIn(p, m) && m != l ensures tops[m] != Top(p, l) {
      assert tops[m] == TopsOf(p)[m];
    }
  }

  lemma RequeueKeepsPiTrees(p: Pi, l: nat, t: Task)
    requires Shape(p) && LockIn(p, l) && TaskIn(p, t) && p.blockedOn[t] == l
    ensures Trees(Requeue(p, l, t)) && PiTrees(Requeue(p, l, t), TopsOf(Requeue(p, l, t))[l := Top(p, l)])
    ensures Top(p, l) == Top(Requeue(p, l, t), l) || p.owner[l] == None ==> Shape(Requeue(p, l, t))
  {
    hide Sorted, Insert, Remove, Trees, PiTrees, TopsOf;
    TreesAreSized(p);
    var p1 := Requeue(p, l, t);
    RequeueKeepsTrees(p, l, t);
    TreesAreSized(p1);
    RequeueTops(p, l, t);
    PiTreesFrame(p, p1, TopsOf(p), t);
    TopIsBlocked(p1, l);
    if p.owner[l] == None {
      NotAnotherTopIn(p1, TopsOf(p), l);
      UnownedTop(p1, TopsOf(p), l, Top(p1, l));
    }
  }

  /** The entry of a lock without owner is free. */
  lemma UnownedTop(p: Pi, tops: Tops, l: nat, w: int)
    requires PiTrees(p, tops) && LockIn(p, l) && p.owner[l] == None && (w == None || TaskIn(p, w))
    requires w != None ==> forall m :: LockIn(p, m) && m != l ==> tops[m] != w
    ensures PiTrees(p, tops[l := w])
  {
    var tops' := tops[l := w];
    forall o | TaskIn(p, o) ensures PiTree(p, tops', o) {
      assert PiTree(p, tops, o);
      forall x | x in p.piWaiters[o] ensures Represents(p, tops', o, x) {
        assert Represents(p, tops, o, x);
        var m :| LockIn(p, m) && p.owner[m] == o && tops[m] == x;
        assert LockIn(p, m) && p.owner[m] == o && tops'[m] == x;
      }
    }
    forall m | LockIn(p, m) ensures Listed(p, tops', m) {
      assert Listed(p, tops, m);
    }
  }

  // ---------------------------------------------------------------------------
  // One step of the chain walk
  // ---------------------------------------------------------------------------

  /** The waiter of `t` is behind the priority of `t`. */
  ghost predicate Behind(p: Pi, t: Task) {
    Shape(p) && TaskIn(p, t) && p.blockedOn[t] != None && Keys(p, t) && Less(p.eff[t], p.treeKey[t])
  }

  /** Requeued, the waiter is either not at the top, and everything is right, or it is to be pushed
      to the owner. */
  lemma Requeued(p: Pi, t: Task)
    requires Behind(p, t)
    ensures var l := p.blockedOn[t]; LockIn(p, l) && Trees(Requeue(p, l, t))
    ensures var l := p.blockedOn[t]; var p1 := Requeue(p, l, t);
            if p.owner[l] == None || Top(p1, l) != t then Boosted(p1)
            && (p.owner[l] != None ==> Top(p1, l) == Top(p, l))
            else Top(p, l) != None && TaskIn(p, Top(p, l)) && Pushing(p1, l, Top(p, l), Top(p, l), t)
  {
    hide Sorted, Insert, Remove, Trees, PiTrees, TopsOf, Donated;
    var l := p.blockedOn[t];
    TreesAreSized(p);
    var p1 := Requeue(p, l, t);
    RequeueKeepsTrees(p, l, t);
    RequeueKeepsPiTrees(p, l, t);
    TreesAreSized(p1);
    TopWasThere(p, l, t);
    forall x | TaskIn(p1, x) ensures KeyFresh(p1, x) && Inherits(p1, x) {
      assert (x != t ==> KeyFresh(p, x)) && Inherits(p, x);
      DonatedFrame(p, p1, x, t);
    }
    OtherTops(p, l, t);
    forall m | LockIn(p1, m) && m != l ensures PiKeyFresh(p1, m) {
      assert PiKeyFresh(p, m);
    }
    assert PiKeyFresh(p, l);
    TopIsBlocked(p, l);
    if p.owner[l] != None && Top(p1, l) == t && Top(p, l) != t {
      TopCovers(p1, l, Top(p, l));
    }
  }

  /** Whatever the new priority, a requeued waiter that neither was nor is at the top leaves
      everything right; otherwise the new top is to take the place of the old one at the owner. */
  lemma RequeuedAny(p: Pi, t: Task)
    requires Shape(p) && TaskIn(p, t) && p.blockedOn[t] != None && Keys(p, t)
    ensures var l := p.blockedOn[t]; LockIn(p, l) && Trees(Requeue(p, l, t))
    ensures var l := p.blockedOn[t]; var p1 := Requeue(p, l, t);
            if p.owner[l] == None || (Top(p1, l) != t && Top(p, l) != t) then Boosted(p1)
            else Top(p, l) != None && Top(p1, l) != None && TaskIn(p, Top(p1, l)) && TaskIn(p, Top(p, l))
                 && Swapping(p1, l, Top(p, l), Top(p, l), Top(p1, l))
  {
    hide Sorted, Insert, Remove, Trees, PiTrees, TopsOf, Donated;
    var l := p.blockedOn[t];
    TreesAreSized(p);
    var p1 := Requeue(p, l, t);
    RequeueKeepsTrees(p, l, t);
    RequeueKeepsPiTrees(p, l, t);
    TreesAreSized(p1);
    TopWasThere(p, l, t);
    TopWasThere(p1, l, t);
    forall x | TaskIn(p1, x) ensures KeyFresh(p1, x) && Inherits(p1, x) {
      assert (x != t ==> KeyFresh(p, x)) && Inherits(p, x);
      DonatedFrame(p, p1, x, t);
    }
    OtherTops(p, l, t);
    forall m | LockIn(p1, m) && m != l ensures PiKeyFresh(p1, m) {
      assert PiKeyFresh(p, m);
    }
    assert PiKeyFresh(p, l);
    TopIsBlocked(p, l);
    TopIsBlocked(p1, l);
  }

  /** A blocked task's lock has a top waiter. */
  lemma TopWasThere(p: Pi, l: nat, t: Task)
    requires Trees(p) && TaskIn(p, t) && p.blockedOn[t] == l && LockIn(p, l)
    ensures Top(p, l) != None
  {
    assert Waits(p, t);
  }

  lemma OtherTops(p: Pi, l: nat, t: Task)
    requires Trees(p) && TaskIn(p, t) && p.blockedOn[t] == l && LockIn(p, l)
    ensures forall m :: LockIn(p, m) && m != l ==> Top(Requeue(p, l, t), m) == Top(p, m) && Top(p, m) != t
  {
    forall m | LockIn(p, m) && m != l ensures Top(p, m) != t {
      if Top(p, m) != None {
        TopIsBlocked(p, m);
      }
    }
  }

  lemma TopCovers(p: Pi, l: nat, w: Task)
    requires Trees(p) && LockIn(p, l) && TaskIn(p, w) && p.blockedOn[w] == l
    ensures Top(p, l) != None && TaskIn(p, Top(p, l)) && Covers(p.treeKey[Top(p, l)], p.treeKey[w])
  {
    assert Queued(p, l) && Waits(p, w);
    SortedFacts(p.waiters[l], p.treeKey);
  }

  // ---------------------------------------------------------------------------
  // A task blocks
  // ---------------------------------------------------------------------------

  /** task_blocks_on_rt_mutex up to the owner: both keys fresh, queued, blocked. */
  function Blocked(p: Pi, l: nat, t: Task): Pi
    requires Trees(p) && LockIn(p, l) && TaskIn(p, t)
  {
    ClonePrio(Block(p, l, t), t)
  }

  lemma BlockedKeepsTrees(p: Pi, l: nat, t: Task)
    requires Shape(p) && LockIn(p, l) && TaskIn(p, t) && p.blockedOn[t] == None
    ensures var p1 := Blocked(p, l, t);
            && Trees(p1) && PiTrees(p1, TopsOf(p1)[l := Top(p, l)]) && Top(p1, l) != None
            && (Top(p1, l) == Top(p, l) || p.owner[l] == None ==> Shape(p1))
            && Top(p1, l) == (if Top(p, l) == None || Less(p.eff[t], p.treeKey[Top(p, l)]) then t else Top(p, l))
  {
    hide Sorted, Insert, Remove, Trees, PiTrees, TopsOf;
    TreesAreSized(p);
    var p1 := Blocked(p, l, t);
    BlockKeepsTrees(p, l, t);
    TreesAreSized(Block(p, l, t));
    TreesFrame(Block(p, l, t), p1);
    BlockTops(p, l, t);
    NotATop(p, t);
    PiTreesFrame(p, p1, TopsOf(p), t);
    TopIsBlocked(p1, l);
    if p.owner[l] == None {
      NotAnotherTopIn(p1, TopsOf(p), l);
      UnownedTop(p1, TopsOf(p), l, Top(p1, l));
    }
  }

  lemma BlockTops(p: Pi, l: nat, t: Task)
    requires Trees(p) && LockIn(p, l) && TaskIn(p, t)
    ensures var p1 := Blocked(p, l, t);
            TopsOf(p1) == TopsOf(p)[l := Top(p1, l)] && TopsOf(p1)[l := Top(p, l)] == TopsOf(p)
    ensures Top(p, l) == Top(Blocked(p, l, t), l) ==> TopsOf(Blocked(p, l, t)) == TopsOf(p)
    ensures forall m :: LockIn(p, m) && m != l ==> Top(Blocked(p, l, t), m) == Top(p, m)
  {
    var p1 := Blocked(p, l, t);
    assert forall m :: LockIn(p, m) && m != l ==> Top(p1, m) == Top(p, m);
    assert Top(p, l) == Top(p1, l) ==> TopsOf(p1) == TopsOf(p);
  }

  /** A task that is not blocked is at no top. */
  lemma NotATop(p: Pi, t: Task)
    requires Trees(p) && TaskIn(p, t) && p.blockedOn[t] == None
    ensures forall m :: LockIn(p, m) ==> TopsOf(p)[m] != t && Top(p, m) != t
  {
    forall m | LockIn(p, m) ensures TopsOf(p)[m] != t && Top(p, m) != t {
      if Top(p, m) != None {
        TopIsBlocked(p, m);
      }
    }
  }

  /** The waiter that stands for the lock when `t` comes to the top. */
  function StaleTop(p: Pi, l: nat, t: Task): int
    requires l < |p.waiters|
  {
    if Top(p, l) == None then t else Top(p, l)
  }

  lemma BlockedIsReady(p: Pi, l: nat, t: Task)
    requires Boosted(p) && LockIn(p, l) && TaskIn(p, t) && p.blockedOn[t] == None
    ensures var p1 := Blocked(p, l, t);
            if p.owner[l] == None || Top(p1, l) != t then Boosted(p1)
            else TaskIn(p, StaleTop(p, l, t)) && Pushing(p1, l, Top(p, l), StaleTop(p, l, t), t)
  {
    hide Sorted, Insert, Remove, Trees, PiTrees, TopsOf, Donated;
    TreesAreSized(p);
    var p1 := Blocked(p, l, t);
    BlockedKeepsTrees(p, l, t);
    BlockTops(p, l, t);
    NotATop(p, t);
    TreesAreSized(p1);
    NotInPiTrees(p, t);
    forall x | TaskIn(p1, x) ensures KeyFresh(p1, x) && Inherits(p1, x) {
      assert KeyFresh(p, x) && Inherits(p, x);
      DonatedFrame(p, p1, x, t);
    }
    forall m | LockIn(p1, m) && (m != l || Top(p1, l) != t) ensures PiKeyFresh(p1, m) {
      assert PiKeyFresh(p, m);
    }
    assert PiKeyFresh(p, l);
    if Top(p, l) != None {
      TopIsBlocked(p, l);
      TopCovers(p1, l, Top(p, l));
    }
  }

  lemma NotInPiTrees(p: Pi, t: Task)
    requires Shape(p) && TaskIn(p, t) && p.blockedOn[t] == None
    ensures forall o :: TaskIn(p, o) ==> t !in p.piWaiters[o]
  {
    NotATop(p, t);
    forall o | TaskIn(p, o) ensures t !in p.piWaiters[o] {
      NotInPiTree(p, TopsOf(p), o, t);
    }
  }

  /** In full effect, every owner on the way is at least as urgent as the waiter. */
  lemma OwnersCover(p: Pi, t: Task)
    requires Boosted(p) && TaskIn(p, t) && p.blockedOn[t] != None && p.owner[p.blockedOn[t]] != None
    ensures TaskIn(p, p.owner[p.blockedOn[t]]) && Covers(p.eff[p.owner[p.blockedOn[t]]], p.eff[t])
  {
    var l := p.blockedOn[t];
    var o := p.owner[l];
    TopCovers(p, l, t);
    TopIsBlocked(p, l);
    var w := Top(p, l);
    assert KeyFresh(p, t) && KeyFresh(p, w) && PiKeyFresh(p, l) && Inherits(p, o);
    assert TopsOf(p)[l] == w && Listed(p, TopsOf(p), l) && PiTree(p, TopsOf(p), o);
    SortedFacts(p.piWaiters[o], p.piKey);
    var i :| 0 <= i < |p.piWaiters[o]| && p.piWaiters[o][i] == w;
    assert Covers(p.piKey[p.piWaiters[o][0]], p.piKey[w]);
  }

  /** Nobody who waits for `l` goes before its top waiter. */
  ghost predicate FirstInLine(p: Pi, l: nat) {
    Sizes(p) && LockIn(p, l) &&
    forall w :: TaskIn(p, w) && p.blockedOn[w] == l ==>
      TaskIn(p, Top(p, l)) && p.blockedOn[Top(p, l)] == l && NoLater(p.treeKey[Top(p, l)], p.treeKey[w])
  }

  lemma TopIsFirst(p: Pi, l: nat)
    requires Trees(p) && LockIn(p, l)
    ensures FirstInLine(p, l)
  {
    forall w | TaskIn(p, w) && p.blockedOn[w] == l
      ensures TaskIn(p, Top(p, l)) && p.blockedOn[Top(p, l)] == l && NoLater(p.treeKey[Top(p, l)], p.treeKey[w])
    {
      TopCovers(p, l, w);
      TopIsBlocked(p, l);
      CoversIsNoLater(p.treeKey[Top(p, l)], p.treeKey[w]);
    }
  }

  /** Where all who wait are deadline tasks, the top waiter has the earliest deadline. */
  lemma TopIsEarliest(p: Pi, l: nat, w: Task)
    requires Trees(p) && LockIn(p, l) && TaskIn(p, w) && p.blockedOn[w] == l
    requires forall x :: TaskIn(p, x) && p.blockedOn[x] == l ==> p.treeKey[x].prio == -1
    ensures TaskIn(p, Top(p, l)) && p.treeKey[Top(p, l)].deadline <= p.treeKey[w].deadline
  {
    TopIsFirst(p, l);
  }

  /** And a deadline task that blocks is the top waiter at once exactly when its deadline is earlier
      than all others. */
  lemma EarliestIsTop(p: Pi, l: nat, t: Task)
    requires Trees(p) && LockIn(p, l) && TaskIn(p, t) && p.blockedOn[t] == None && p.eff[t].prio == -1
    requires forall x :: TaskIn(p, x) && p.blockedOn[x] == l ==> p.treeKey[x].prio == -1
    ensures Top(Block(p, l, t), l) == t <==>
            forall x :: TaskIn(p, x) && p.blockedOn[x] == l ==> p.eff[t].deadline < p.treeKey[x].deadline
  {
    hide Block;
    BlockKeepsTrees(p, l, t);
    if Top(p, l) != None {
      TopIsBlocked(p, l);
      TopIsFirst(p, l);
      CoversIsNoLater(p.eff[t], p.treeKey[Top(p, l)]);
    } else {
      assert forall x :: TaskIn(p, x) && p.blockedOn[x] == l ==> Waits(p, x);
    }
  }

  /** The owner is no later than who waits for it. */
  lemma OwnersAreNoLater(p: Pi, t: Task)
    requires Boosted(p) && TaskIn(p, t) && p.blockedOn[t] != None && p.owner[p.blockedOn[t]] != None
    ensures TaskIn(p, p.owner[p.blockedOn[t]]) && NoLater(p.eff[p.owner[p.blockedOn[t]]], p.eff[t])
  {
    hide Covers;
    OwnersCover(p, t);
    CoversIsNoLater(p.eff[p.owner[p.blockedOn[t]]], p.eff[t]);
  }
}
