/** The held_locks array of a task in tests/locking/lockdep.c, worked on in place, with the chain key
    that is carried along: taking a lock, releasing any of the held locks, and downgrading one. */
module LockStack {
  import opened HeldStack

  datatype Held = Held(hold: Hold, prevKey: int)

  function Holds(a: seq<Held>): (s: seq<Hold>)
    ensures |s| == |a| && forall i :: 0 <= i < |a| ==> s[i] == a[i].hold
  {
    seq(|a|, i requires 0 <= i < |a| => a[i].hold)
  }

  /** Every entry holds the chain key of what is below it. */
  predicate KeysOk(mix: (int, int) -> int, a: seq<Held>) {
    forall i :: 0 <= i < |a| ==> a[i].prevKey == KeyOf(mix, Holds(a[..i]))
  }

  lemma PushKeeps(mix: (int, int) -> int, a: seq<Held>, h: Held)
    requires KeysOk(mix, a) && h.prevKey == KeyOf(mix, Holds(a))
    ensures KeysOk(mix, a + [h]) && Holds(a + [h]) == Holds(a) + [h.hold]
    ensures Holds(a + [h])[..|a|] == Holds(a)
  {
    var b := a + [h];
    forall i | 0 <= i < |b| ensures b[i].prevKey == KeyOf(mix, Holds(b[..i])) {
      assert b[..i] == a[..i];
      assert a[..|a|] == a;
    }
  }

  lemma CutKeeps(mix: (int, int) -> int, a: seq<Held>, n: nat)
    requires KeysOk(mix, a) && n <= |a|
    ensures KeysOk(mix, a[..n]) && Holds(a[..n]) == Holds(a)[..n]
  {
    forall i | 0 <= i < n ensures a[..n][i].prevKey == KeyOf(mix, Holds(a[..n][..i])) {
      assert a[..n][..i] == a[..i];
    }
  }

  /** References do not enter the keys. */
  lemma RecountKeeps(mix: (int, int) -> int, a: seq<Held>, i: nat, references: nat)
    requires KeysOk(mix, a) && i < |a|
    ensures var b := a[i := a[i].(hold := a[i].hold.(references := references))];
            KeysOk(mix, b) && KeyOf(mix, Holds(b)) == KeyOf(mix, Holds(a))
            && Holds(b) == Holds(a)[i := a[i].hold.(references := references)]
  {
    hide KeyOf;
    var b := a[i := a[i].(hold := a[i].hold.(references := references))];
    forall k | 0 <= k < |b| ensures b[k].prevKey == KeyOf(mix, Holds(b[..k])) {
      KeyOfSame(mix, Holds(b[..k]), Holds(a[..k]));
    }
    KeyOfSame(mix, Holds(b), Holds(a));
  }

  class HeldLocks {

    const mix: (int, int) -> int
    const classOf: int -> int
    const held: array<Held>
    var depth: nat
    var key: int

    /** What is kept between calls: the incremental keys are what they would be from scratch. */
    ghost predicate Valid()
      reads this, held
    {
      && held.Length == MaxDepth && depth <= MaxDepth
      && KeysOk(mix, held[..depth]) && key == KeyOf(mix, Stack())
      && Sound(Stack())
    }

    ghost function Stack(): seq<Hold>
      reads this, held
      requires depth <= held.Length
    {
      Holds(held[..depth])
    }

    /** lockdep_init_task */
    constructor (mix: (int, int) -> int, classOf: int -> int)
      ensures Valid() && fresh(held) && Stack() == [] && this.mix == mix && this.classOf == classOf
    {
      this.mix, this.classOf := mix, classOf;
      held := new Held[MaxDepth](_ => Held(Hold(0, 0, None, 0, 0, 0, 0), 0));
      depth, key := 0, InitialKey;
    }

    /** __lock_is_held, reads and writes alike. */
    method LockIsHeld(lock: int) returns (yes: bool)
      requires Valid()
      ensures yes <==> IsHeld(classOf, Stack(), lock)
    {
      hide KeysOk, KeyOf, Normal, Matches;
      for i := 0 to depth
        invariant forall j :: 0 <= j < i ==> !Matches(classOf, Stack()[j], lock)
      {
        if Matches(classOf, held[i].hold, lock) {
          assert Stack()[i] == held[i].hold;
          return true;
        }
      }
      return false;
    }

    /** check_chain_key finds nothing to complain about. */
    method CheckChainKey() returns (ok: bool)
      requires Valid()
      ensures ok
    {
      hide KeyOf, Sound;
      var k := InitialKey;
      KeyOfNone(mix);
      for i := 0 to depth
        invariant k == KeyOf(mix, Holds(held[..i]))
      {
        assert held[..depth][..i] == held[..i] && held[..depth][i] == held[i];
        if k != held[i].prevKey { return false; }
        assert Holds(held[..i + 1]) == Holds(held[..i]) + [held[i].hold];
        KeyOfPush(mix, Holds(held[..i]), held[i].hold);
        if i > 0 && held[i - 1].hold.irq != held[i].hold.irq { k := InitialKey; }
        k := mix(k, HlockId(held[i].hold));
      }
      assert held[..depth] == held[..depth];
      return k == key;
    }

    method SetReferences(i: nat, references: nat)
      requires Valid() && i < depth && references < MaxReferences
      modifies held
      ensures Valid() && Stack() == old(Stack())[i := old(Stack())[i].(references := references)]
      ensures forall j :: 0 <= j < held.Length && j != i ==> held[j] == old(held[j])
    {
      hide KeysOk, KeyOf;
      ghost var was := held[..depth];
      held[i] := held[i].(hold := held[i].hold.(references := references));
      assert held[..depth] == was[i := held[i]];
      RecountKeeps(mix, was, i, references);
    }

    /** __lock_acquire. Entries above the new top are left alone. */
    method Acquire(h: Hold, sync: bool, pass: bool) returns (code: nat)
      requires Valid() && h.references < MaxReferences
      modifies this, held
      ensures Valid()
      ensures Outcome(Stack(), code) == Acquired(classOf, old(Stack()), h, sync, pass)
      ensures !sync && code != 0 ==> Total(Stack()) == old(Total(Stack())) + Count(h)
      ensures forall j :: old(depth) < j < held.Length ==> held[j] == old(held[j])
    {
      hide KeysOk, KeyOf, Normal, IsHeld, Total;
      ghost var was, s := held[..depth], Stack();
      AcquiredIsNormal(classOf, s, h, sync, pass);
      AcquireCounts(classOf, s, h, sync, pass);
      if depth >= MaxDepth { return 0; }
      if depth > 0 && !sync && held[depth - 1].hold.cls == h.cls && h.nest != None {
        var merged := Merge(held[depth - 1].hold, h);
        SetReferences(depth - 1, merged.references);
        assert Stack() == s[..|s| - 1] + [merged];
        return if merged.references < Count(h) then 0 else 2;
      }
      held[depth] := Held(h, key);
      assert held[..depth] == was;
      if !pass { return 0; }
      var k := key;
      if depth > 0 && held[depth - 1].hold.irq != h.irq { k := InitialKey; }
      k := mix(k, HlockId(h));
      KeyOfPush(mix, s, h);
      if h.nest != None {
        var nested := LockIsHeld(h.nest);
        if !nested { return 0; }
      }
      if sync { return 1; }
      Push(k);
      var ok := CheckChainKey();
      assert ok;
      return if depth >= MaxDepth then 0 else 1;
    }

    /** The entry just above the top becomes the top. */
    method Push(k: int)
      requires Valid() && depth < MaxDepth
      requires held[depth].prevKey == key && held[depth].hold.references < MaxReferences
      requires Normal(Stack() + [held[depth].hold]) && k == KeyOf(mix, Stack() + [held[depth].hold])
      modifies `depth, `key
      ensures Valid() && Stack() == old(Stack()) + [held[old(depth)].hold] && depth == old(depth) + 1
    {
      hide KeysOk, KeyOf, Normal;
      PushKeeps(mix, held[..depth], held[depth]);
      key := k;
      depth := depth + 1;
      assert held[..depth] == held[..depth - 1] + [held[depth - 1]];
    }

    /** find_held_lock: the topmost entry that matches, unless an irq context ends above it; -1 if none. */
    method FindHeldLock(lock: int) returns (i: int)
      requires Valid() && depth > 0
      ensures -1 <= i < depth
      ensures i >= 0 ==> Found(classOf, Stack(), i, lock)
      ensures i < 0 ==> forall j :: !Found(classOf, Stack(), j, lock)
    {
      hide KeysOk, KeyOf, Normal, Matches;
      i := depth - 1;
      ghost var s := Stack();
      if Matches(classOf, held[i].hold, lock) { return; }
      i := i - 1;
      while i >= 0
        invariant -1 <= i < depth - 1
        invariant forall j :: i < j < depth ==> !Matches(classOf, s[j], lock)
        invariant forall j :: i + 1 < j < depth ==> s[j - 1].irq == s[j].irq
      {
        if held[i + 1].hold.irq != held[i].hold.irq {
          assert s[i + 1 - 1].irq != s[i + 1].irq;
          return -1;
        }
        if Matches(classOf, held[i].hold, lock) { return; }
        i := i - 1;
      }
    }

    /** reacquire_held_locks: take the entries from `first` to `top` again, in irq context `irq`. They
        are read before the growing stack comes to overwrite them. */
    method Reacquire(top: nat, first: nat, irq: int, pass: seq<bool>, ghost ups: seq<Hold>)
        returns (failed: bool, merged: nat)
      requires Valid() && depth <= first <= top <= MaxDepth
      requires |pass| == |ups| && Holds(held[first..top]) == ups
      requires forall j :: first <= j < top ==> held[j].hold.references < MaxReferences
      modifies this, held
      ensures Valid()
      ensures var r := Replay(classOf, old(Stack()), ups, irq, pass, |ups|);
              Stack() == r.stack && failed == !r.ok && merged == r.merged
    {
      hide KeysOk, KeyOf, Normal, IsHeld, Acquired, Replay;
      ghost var s := Stack();
      ReplayNone(classOf, s, ups, irq, pass);
      merged := 0;
      var i := first;
      while i < top
        invariant first <= i <= top && Valid() && depth <= i
        invariant forall j :: i <= j < top ==> held[j] == old(held[j])
        invariant Replay(classOf, s, ups, irq, pass, i - first) == Replayed(Stack(), true, merged)
      {
        assert held[i].hold == ups[i - first];
        ghost var below := Stack();
        var code := Acquire(held[i].hold.(irq := irq), false, pass[i - first]);
        AcquiredGrows(classOf, below, ups[i - first].(irq := irq), pass[i - first]);
        ReplayGoesOn(classOf, s, ups, irq, pass, i - first);
        if code == 0 {
          ReplayStops(classOf, s, ups, irq, pass, i + 1 - first, top - first);
          return true, merged;
        }
        if code == 2 && i == first { merged := merged + 1; }
        i := i + 1;
      }
      return false, merged;
    }

    /** __lock_release of the entry `i` that was found. `warned` is the check that the depth came out
        as expected. */
    method ReleaseEntry(i: nat, irq: int, pass: seq<bool>) returns (code: nat, warned: bool)
      requires Valid() && i < depth && |pass| == depth - i - 1
      modifies this, held
      ensures Valid() && Outcome(Stack(), code) == Released(classOf, old(Stack()), i, irq, pass)
      ensures !warned
    {
      hide KeysOk, KeyOf, Normal, Replay, Without, Joins;
      ghost var s := Stack();
      warned := false;
      var h := held[i].hold;
      if h.references > 0 {
        SetReferences(i, h.references - 1);
        if h.references - 1 > 0 { return 1, false; }
      }
      var top := depth;
      Cut(i);
      if i == top - 1 { return 1, false; }
      assert Holds(held[i + 1..top]) == s[i + 1..];
      var failed, merged := Reacquire(top, i + 1, irq, pass, s[i + 1..]);
      if failed { return 0, false; }
      ReplayIs(classOf, s, i, irq, pass, |pass|);
      assert s[..i + 1 + |pass|] == s;
      WithoutLength(s, i, irq);
      warned := depth != top - (1 + merged);
      return 0, warned;
    }

    /** __lock_downgrade of the entry `i` that was found: it becomes a read hold, and keeps its place. */
    method DowngradeEntry(i: nat, info: int, irq: int, pass: seq<bool>) returns (code: int, warned: bool)
      requires Valid() && i < depth && |pass| == depth - i
      modifies this, held
      ensures Valid() && !warned
      ensures var s := old(Stack());
              var ups := [s[i].(read := 1, info := info)] + s[i + 1..];
              var r := Replay(classOf, s[..i], ups, irq, pass, |ups|);
              && Stack() == r.stack && code == (if r.ok then 1 else 0)
              && (r.ok ==> Stack() == s[..i] + Moved(ups, irq))
    {
      hide KeysOk, KeyOf, Normal, Replay;
      ghost var s := Stack();
      var top := depth;
      Cut(i);
      held[i] := held[i].(hold := held[i].hold.(read := 1, info := info));
      assert held[..depth] == old(held[..i]);
      ghost var ups := [s[i].(read := 1, info := info)] + s[i + 1..];
      assert Holds(held[i..top]) == ups;
      DowngradeIsNormal(s, i, info);
      ReplayPlain(classOf, s[..i], ups, irq, pass, |ups|);
      var failed, merged := Reacquire(top, i, irq, pass, ups);
      if failed { return 0, false; }
      assert ups[..|ups|] == ups;
      warned := merged > 0 || depth != top;
      code := if warned then 0 else 1;
    }

    /** The stack ends below entry `i`. */
    method Cut(i: nat)
      requires Valid() && i < depth
      modifies `depth, `key
      ensures Valid() && Stack() == old(Stack())[..i] && depth == i
    {
      hide KeyOf;
      CutKeeps(mix, held[..depth], i);
      assert held[..depth][..i] == held[..i];
      assert held[..depth][i] == held[i];
      key := held[i].prevKey;
      depth := i;
    }

    /** __lock_release: nothing happens when the lock is not found. */
    method Release(lock: int, irq: int, pass: seq<bool>) returns (code: nat, warned: bool)
      requires Valid() && |pass| >= depth
      modifies this, held
      ensures Valid() && !warned
      ensures (forall i :: !Found(classOf, old(Stack()), i, lock)) ==> code == 0 && Stack() == old(Stack())
      ensures forall i :: Found(classOf, old(Stack()), i, lock) ==>
                Outcome(Stack(), code) == Released(classOf, old(Stack()), i, irq, pass[..|old(Stack())| - i - 1])
    {
      hide KeysOk, KeyOf, Normal, Replay, Released;
      if depth == 0 { return 0, false; }
      var i := FindHeldLock(lock);
      if i < 0 { return 0, false; }
      OneIsFound(classOf, Stack(), i, lock);
      code, warned := ReleaseEntry(i, irq, pass[..depth - i - 1]);
    }
  }

  lemma DowngradeIsNormal(s: seq<Hold>, i: nat, info: int)
    requires Normal(s) && i < |s|
    ensures Normal(s[..i] + ([s[i].(read := 1, info := info)] + s[i + 1..]))
  {
    var t := s[..i] + ([s[i].(read := 1, info := info)] + s[i + 1..]);
    forall j | 0 < j < |t| ensures !(t[j].nest != None && t[j].cls == t[j - 1].cls) {
      assert !(s[j].nest != None && s[j].cls == s[j - 1].cls);
    }
  }

  lemma AcquiredGrows(classOf: int -> int, s: seq<Hold>, h: Hold, pass: bool)
    ensures |Acquired(classOf, s, h, false, pass).stack| <= |s| + 1
  {
  }

  lemma ReplayNone(classOf: int -> int, s: seq<Hold>, ups: seq<Hold>, irq: int, pass: seq<bool>)
    requires |pass| == |ups|
    ensures Replay(classOf, s, ups, irq, pass, 0) == Replayed(s, true, 0)
  {
  }

  lemma ReplayGoesOn(classOf: int -> int, s: seq<Hold>, ups: seq<Hold>, irq: int, pass: seq<bool>, k: nat)
    requires k < |ups| == |pass| && Replay(classOf, s, ups, irq, pass, k).ok
    ensures var r := Replay(classOf, s, ups, irq, pass, k);
            var o := Acquired(classOf, r.stack, ups[k].(irq := irq), false, pass[k]);
            Replay(classOf, s, ups, irq, pass, k + 1) ==
            Replayed(o.stack, o.code != 0, r.merged + if o.code == 2 && k == 0 then 1 else 0)
  {
  }

  lemma {:induction false} ReplayStops(classOf: int -> int, s: seq<Hold>, ups: seq<Hold>, irq: int, pass: seq<bool>,
                                       k: nat, n: nat)
    requires k <= n <= |ups| == |pass| && !Replay(classOf, s, ups, irq, pass, k).ok
    ensures Replay(classOf, s, ups, irq, pass, n) == Replay(classOf, s, ups, irq, pass, k)
  {
    if k < n { ReplayStops(classOf, s, ups, irq, pass, k, n - 1); }
  }

  lemma KeyOfNone(mix: (int, int) -> int)
    ensures KeyOf(mix, []) == InitialKey
  {
  }

  lemma KeyOfPush(mix: (int, int) -> int, s: seq<Hold>, h: Hold)
    ensures KeyOf(mix, s + [h]) ==
            mix(if s != [] && Last(s).irq != h.irq then InitialKey else KeyOf(mix, s), HlockId(h))
  {
    assert (s + [h])[..|s|] == s;
  }
}
