/** The per-task stack of held locks of tests/locking/lockdep.c, on values: what taking a lock does to
    it, and what releasing one does, which takes the locks above apart and acquires them again. */
module HeldStack {

  const None := -1

  /** MAX_LOCK_DEPTH */
  const MaxDepth := 48

  /** The references field is a bit field of this many values. */
  const MaxReferences := 4096

  /** MAX_LOCKDEP_KEYS, the number of bits of a class index being fixed. */
  const MaxKeys := 8192

  const InitialKey := -1

  /** A held_lock without its chain key. `cls` is the class index, `lock` the instance, `nest` the
      nest_lock or None; `irq` is the irq_context and `info` stands for the fields that are passed
      along unread: acquire_ip, trylock, check, hardirqs_off, pin_count. */
  datatype Hold = Hold(cls: nat, lock: nat, nest: int, irq: int, read: nat, references: nat, info: int)

  /** How many acquisitions an entry stands for. */
  function Count(h: Hold): (n: nat)
    ensures n > 0
  {
    if h.references == 0 then 1 else h.references
  }

  function Total(s: seq<Hold>): nat { if s == [] then 0 else Count(s[0]) + Total(s[1..]) }

  function Last(s: seq<Hold>): Hold
    requires s != []
  {
    s[|s| - 1]
  }

  /** Taking `h` with the nest lock held only counts another reference on an entry of its class. */
  predicate Merges(s: seq<Hold>, h: Hold) { s != [] && Last(s).cls == h.cls && h.nest != None }

  function Merge(a: Hold, b: Hold): Hold { a.(references := (Count(a) + Count(b)) % MaxReferences) }

  predicate Overflows(a: Hold, b: Hold) { (Count(a) + Count(b)) % MaxReferences < Count(b) }

  /** match_held_lock; `classOf` is the class a lock's first subclass is registered with, or None. */
  predicate Matches(classOf: int -> int, h: Hold, lock: int) {
    h.lock == lock || (h.references != 0 && classOf(lock) != None && h.nest != None && h.cls == classOf(lock))
  }

  predicate IsHeld(classOf: int -> int, s: seq<Hold>, lock: int) {
    exists i :: 0 <= i < |s| && Matches(classOf, s[i], lock)
  }

  /** The return value of __lock_acquire and the stack it leaves. */
  datatype Outcome = Outcome(stack: seq<Hold>, code: nat)

  /** __lock_acquire: `pass` is the verdict of the checks on the new lock alone and its dependencies. */
  function Acquired(classOf: int -> int, s: seq<Hold>, h: Hold, sync: bool, pass: bool): Outcome {
    if |s| >= MaxDepth then Outcome(s, 0)
    else if !sync && Merges(s, h) then
      Outcome(s[..|s| - 1] + [Merge(Last(s), h)], if Overflows(Last(s), h) then 0 else 2)
    else if !pass || (h.nest != None && !IsHeld(classOf, s, h.nest)) then Outcome(s, 0)
    else if sync then Outcome(s, 1)
    else Outcome(s + [h], if |s| + 1 >= MaxDepth then 0 else 1)
  }

  /** No entry could have been merged into the one below. */
  predicate Normal(s: seq<Hold>) {
    forall i :: 0 < i < |s| ==> !(s[i].nest != None && s[i].cls == s[i - 1].cls)
  }

  lemma AcquiredIsNormal(classOf: int -> int, s: seq<Hold>, h: Hold, sync: bool, pass: bool)
    requires Normal(s)
    ensures Normal(Acquired(classOf, s, h, sync, pass).stack)
  {
    var t := Acquired(classOf, s, h, sync, pass).stack;
    forall i | 0 < i < |t| ensures !(t[i].nest != None && t[i].cls == t[i - 1].cls) {
      if i < |s| { assert !(s[i].nest != None && s[i].cls == s[i - 1].cls); }
    }
  }

  /** reacquire_held_locks: the stack after the first `k` of the locks in `ups` have been acquired
      again in irq context `irq`, whether all of that went well, and the value of `merged`. */
  datatype Replayed = Replayed(stack: seq<Hold>, ok: bool, merged: nat)

  function Replay(classOf: int -> int, s: seq<Hold>, ups: seq<Hold>, irq: int, pass: seq<bool>, k: nat): Replayed
    requires k <= |ups| == |pass|
  {
    if k == 0 then Replayed(s, true, 0)
    else
      var r := Replay(classOf, s, ups, irq, pass, k - 1);
      if !r.ok then r
      else
        var o := Acquired(classOf, r.stack, ups[k - 1].(irq := irq), false, pass[k - 1]);
        Replayed(o.stack, o.code != 0, r.merged + if o.code == 2 && k == 1 then 1 else 0)
  }

  function Moved(s: seq<Hold>, irq: int): (t: seq<Hold>)
    ensures |t| == |s| && forall i :: 0 <= i < |s| ==> t[i] == s[i].(irq := irq)
  {
    seq(|s|, i requires 0 <= i < |s| => s[i].(irq := irq))
  }

  /** Taking entry `i` out brings two entries of one class together, the upper with a nest lock. */
  predicate Joins(s: seq<Hold>, i: nat)
  {
    0 < i < |s| - 1 && Merges(s[..i], s[i + 1])
  }

  /** The stack without entry `i`. */
  function Without(s: seq<Hold>, i: nat, irq: int): seq<Hold>
    requires i < |s|
  {
    if Joins(s, i) then s[..i - 1] + [Merge(s[i - 1], s[i + 1])] + Moved(s[i + 2..], irq)
    else s[..i] + Moved(s[i + 1..], irq)
  }

  lemma {:induction false} TotalSplit(a: seq<Hold>, b: seq<Hold>)
    ensures Total(a + b) == Total(a) + Total(b)
  {
    if a == [] {
      assert a + b == b;
    } else {
      assert (a + b)[1..] == a[1..] + b;
      TotalSplit(a[1..], b);
    }
  }

  lemma {:induction false} TotalMoved(s: seq<Hold>, irq: int)
    ensures Total(Moved(s, irq)) == Total(s)
  {
    if s != [] {
      assert Moved(s, irq)[1..] == Moved(s[1..], irq);
      TotalMoved(s[1..], irq);
    }
  }

  lemma WithoutLength(s: seq<Hold>, i: nat, irq: int)
    requires i < |s|
    ensures |Without(s, i, irq)| == |s| - 1 - if Joins(s, i) then 1 else 0
  {
  }

  lemma ReplayFirst(classOf: int -> int, s: seq<Hold>, i: nat, irq: int, pass: seq<bool>)
    requires i < |s| && 1 <= |pass| == |s| - i - 1
    ensures var r := Replay(classOf, s[..i], s[i + 1..], irq, pass, 1);
            r.ok ==>
              && r.merged == (if Joins(s, i) then 1 else 0)
              && r.stack == Without(s[..i + 2], i, irq)
              && (Joins(s, i) ==> !Overflows(s[i - 1], s[i + 1]))
  {
    var u := s[..i + 2];
    assert u[..i] == s[..i] && u[i + 1] == s[i + 1];
    assert Replay(classOf, s[..i], s[i + 1..], irq, pass, 0) == Replayed(s[..i], true, 0);
    assert Moved(u[i + 2..], irq) == [];
    assert Moved(u[i + 1..], irq) == [s[i + 1].(irq := irq)];
  }

  lemma WithoutGrows(s: seq<Hold>, i: nat, irq: int, n: nat)
    requires i + 2 <= n < |s|
    ensures Without(s[..n + 1], i, irq) == Without(s[..n], i, irq) + [s[n].(irq := irq)]
    ensures Without(s[..n], i, irq) != [] && Last(Without(s[..n], i, irq)).cls == s[n - 1].cls
  {
    var t, u := s[..n], s[..n + 1];
    assert t[..i] == u[..i] && t[i + 1] == u[i + 1];
    assert Moved(u[i + 2..], irq) == Moved(t[i + 2..], irq) + [s[n].(irq := irq)];
    assert Moved(u[i + 1..], irq) == Moved(t[i + 1..], irq) + [s[n].(irq := irq)];
  }

  lemma ReplayNext(classOf: int -> int, s: seq<Hold>, ups: seq<Hold>, irq: int, pass: seq<bool>, k: nat)
    requires 0 < k <= |ups| == |pass|
    requires var r := Replay(classOf, s, ups, irq, pass, k - 1); r.ok ==> !Merges(r.stack, ups[k - 1])
    ensures var r0, r := Replay(classOf, s, ups, irq, pass, k - 1), Replay(classOf, s, ups, irq, pass, k);
            r.ok ==> r0.ok && r.merged == r0.merged && r.stack == r0.stack + [ups[k - 1].(irq := irq)]
  {
  }

  /** After the first of the locks above, nothing merges any more. */
  lemma {:induction false} ReplayIs(classOf: int -> int, s: seq<Hold>, i: nat, irq: int, pass: seq<bool>, k: nat)
    requires Normal(s) && i < |s| && 1 <= k <= |pass| == |s| - i - 1
    ensures var r := Replay(classOf, s[..i], s[i + 1..], irq, pass, k);
            r.ok ==>
              && r.merged == (if Joins(s, i) then 1 else 0)
              && r.stack == Without(s[..i + 1 + k], i, irq)
              && (Joins(s, i) ==> !Overflows(s[i - 1], s[i + 1]))
  {
    hide Without, Joins, Replay, Last, Overflows;
    if k == 1 {
      ReplayFirst(classOf, s, i, irq, pass);
    } else {
      var n := i + k;
      WithoutGrows(s, i, irq, n);
      assert s[i + 1..][k - 1] == s[n];
      assert !(s[n].nest != None && s[n].cls == s[n - 1].cls);
      ReplayIs(classOf, s, i, irq, pass, k - 1);
      ReplayNext(classOf, s[..i], s[i + 1..], irq, pass, k);
    }
  }

  /** One more of the locks above. */
  lemma PlainGrows(s: seq<Hold>, ups: seq<Hold>, irq: int, k: nat)
    requires Normal(s + ups) && 0 < k <= |ups|
    ensures s + Moved(ups[..k], irq) == s + Moved(ups[..k - 1], irq) + [ups[k - 1].(irq := irq)]
    ensures !Merges(s + Moved(ups[..k - 1], irq), ups[k - 1])
  {
    var t, n := s + Moved(ups[..k - 1], irq), |s| + k - 1;
    assert (s + ups)[n] == ups[k - 1];
    if n > 0 {
      assert !((s + ups)[n].nest != None && (s + ups)[n].cls == (s + ups)[n - 1].cls);
      assert t[n - 1].cls == (s + ups)[n - 1].cls;
    }
  }

  /** Locks that have not merged do not merge when they are taken again. */
  lemma {:induction false} ReplayPlain(classOf: int -> int, s: seq<Hold>, ups: seq<Hold>, irq: int, pass: seq<bool>,
                                       k: nat)
    requires Normal(s + ups) && k <= |ups| == |pass|
    ensures var r := Replay(classOf, s, ups, irq, pass, k);
            r.ok ==> r.merged == 0 && r.stack == s + Moved(ups[..k], irq)
  {
    hide Normal, Merges;
    if k == 0 {
      assert s + Moved(ups[..0], irq) == s;
    } else {
      ReplayPlain(classOf, s, ups, irq, pass, k - 1);
      PlainGrows(s, ups, irq, k);
      ReplayNext(classOf, s, ups, irq, pass, k);
    }
  }

  /** A stack as lockdep keeps it: normal, with references that fit their field. */
  predicate Sound(s: seq<Hold>) { Normal(s) && forall i :: 0 <= i < |s| ==> s[i].references < MaxReferences }

  lemma TotalAround(below: seq<Hold>, h: Hold, above: seq<Hold>)
    ensures Total(below + [h] + above) == Total(below) + Count(h) + Total(above)
  {
    TotalSplit(below + [h], above);
    TotalSplit(below, [h]);
    assert Total([h]) == Count(h) + Total([h][1..]);
  }

  lemma MergeCounts(a: Hold, b: Hold)
    requires a.references < MaxReferences && b.references < MaxReferences && !Overflows(a, b)
    ensures Count(Merge(a, b)) == Count(a) + Count(b)
  {
  }

  lemma JoinTotal(a: seq<Hold>, l: Hold, h: Hold, u: Hold, b: seq<Hold>)
    requires l.references < MaxReferences && u.references < MaxReferences && !Overflows(l, u)
    ensures Total(a + [l] + [h] + [u] + b) == Total(a + [Merge(l, u)] + b) + Count(h)
  {
    hide Total, Overflows, Merge, Count;
    MergeCounts(l, u);
    TotalAround(a, Merge(l, u), b);
    TotalAround(a + [l] + [h], u, b);
    TotalAround(a + [l], h, []);
    TotalAround(a, l, []);
    assert a + [l] + [h] + [] == a + [l] + [h] && a + [l] + [] == a + [l];
    NothingCounts();
  }

  /** A stack without one of its entries counts as many acquisitions less as the entry stood for. */
  lemma WithoutTotal(s: seq<Hold>, i: nat, irq: int)
    requires Sound(s) && i < |s| && !(Joins(s, i) && Overflows(s[i - 1], s[i + 1]))
    ensures Total(Without(s, i, irq)) == Total(s) - Count(s[i])
  {
    hide Total, Overflows, Count, Merge, Normal, Merges;
    if Joins(s, i) {
      var a, b := s[..i - 1], s[i + 2..];
      assert s == a + [s[i - 1]] + [s[i]] + [s[i + 1]] + b;
      JoinTotal(a, s[i - 1], s[i], s[i + 1], b);
      TotalSplit(a + [Merge(s[i - 1], s[i + 1])], b);
      TotalSplit(a + [Merge(s[i - 1], s[i + 1])], Moved(b, irq));
      TotalMoved(b, irq);
    } else {
      assert s == s[..i] + [s[i]] + s[i + 1..];
      TotalAround(s[..i], s[i], s[i + 1..]);
      TotalSplit(s[..i], Moved(s[i + 1..], irq));
      TotalMoved(s[i + 1..], irq);
    }
  }

  lemma NothingCounts()
    ensures Total([]) == 0
  {
  }

  /** When the locks above were taken in the irq context that releases, they come back as they were. */
  lemma WithoutIsSplice(s: seq<Hold>, i: nat, irq: int)
    requires i < |s| && forall j :: i < j < |s| ==> s[j].irq == irq
    ensures Without(s, i, irq) ==
            if Joins(s, i) then s[..i - 1] + [Merge(s[i - 1], s[i + 1])] + s[i + 2..] else s[..i] + s[i + 1..]
  {
    assert i + 2 <= |s| ==> Moved(s[i + 2..], irq) == s[i + 2..];
    assert Moved(s[i + 1..], irq) == s[i + 1..];
  }

  // ---------------------------------------------------------------------------
  // Chain keys
  // ---------------------------------------------------------------------------

  /** hlock_id: the class index and the read state, packed. */
  function HlockId(h: Hold): nat { h.cls + h.read * MaxKeys }

  /** The chain key from scratch, as check_chain_key computes it; `mix` is iterate_chain_key. */
  function KeyOf(mix: (int, int) -> int, s: seq<Hold>): int {
    if s == [] then InitialKey
    else
      var h := Last(s);
      var below := s[..|s| - 1];
      mix(if below != [] && Last(below).irq != h.irq then InitialKey else KeyOf(mix, below), HlockId(h))
  }

  /** The key does not depend on references. */
  lemma {:induction false} KeyOfSame(mix: (int, int) -> int, s: seq<Hold>, t: seq<Hold>)
    requires |s| == |t|
    requires forall i :: 0 <= i < |s| ==> s[i].cls == t[i].cls && s[i].read == t[i].read && s[i].irq == t[i].irq
    ensures KeyOf(mix, s) == KeyOf(mix, t)
  {
    if s != [] {
      KeyOfSame(mix, s[..|s| - 1], t[..|t| - 1]);
    }
  }

  /** The stack a release leaves, and what it returns: 1 when nothing above had to be acquired again. */
  function Released(classOf: int -> int, s: seq<Hold>, i: nat, irq: int, pass: seq<bool>): Outcome
    requires i < |s| && |pass| == |s| - i - 1
  {
    if s[i].references > 1 then Outcome(s[i := s[i].(references := s[i].references - 1)], 1)
    else if i == |s| - 1 then Outcome(s[..i], 1)
    else Outcome(Replay(classOf, s[..i], s[i + 1..], irq, pass, |pass|).stack, 0)
  }

  predicate ReleaseOk(classOf: int -> int, s: seq<Hold>, i: nat, irq: int, pass: seq<bool>)
    requires i < |s| && |pass| == |s| - i - 1
  {
    s[i].references > 1 || Replay(classOf, s[..i], s[i + 1..], irq, pass, |pass|).ok
  }

  /** A release whose re-acquires all succeed takes away one acquisition and no more: a reference of
      the entry, or the entry, the locks above coming down by one. */
  lemma ReleaseTakesOne(classOf: int -> int, s: seq<Hold>, i: nat, irq: int, pass: seq<bool>)
    requires Sound(s) && i < |s| && |pass| == |s| - i - 1 && ReleaseOk(classOf, s, i, irq, pass)
    ensures var t := Released(classOf, s, i, irq, pass).stack;
            && Total(t) == Total(s) - 1
            && (s[i].references <= 1 ==> t == Without(s, i, irq))
            && (s[i].references > 1 ==> |t| == |s| && forall j :: 0 <= j < |s| && j != i ==> t[j] == s[j])
  {
    hide Without, Joins, Overflows, Total, Replay, Normal;
    var h := s[i];
    if h.references > 1 {
      assert s == s[..i] + [h] + s[i + 1..];
      assert s[i := h.(references := h.references - 1)] == s[..i] + [h.(references := h.references - 1)] + s[i + 1..];
      TotalAround(s[..i], h, s[i + 1..]);
      TotalAround(s[..i], h.(references := h.references - 1), s[i + 1..]);
    } else {
      if i == |s| - 1 {
        WithoutTop(s, irq);
      } else {
        ReplayIs(classOf, s, i, irq, pass, |pass|);
        assert s[..i + 1 + |pass|] == s;
        assert Joins(s, i) ==> i > 0 by { JoinsInside(s, i); }
      }
      WithoutTotal(s, i, irq);
    }
  }

  lemma JoinsInside(s: seq<Hold>, i: nat)
    ensures Joins(s, i) ==> 0 < i < |s| - 1
  {
  }

  lemma WithoutTop(s: seq<Hold>, irq: int)
    requires s != []
    ensures Without(s, |s| - 1, irq) == s[..|s| - 1] && !Joins(s, |s| - 1)
  {
    assert Moved(s[|s|..], irq) == [];
  }

  // ---------------------------------------------------------------------------
  // Taking a lock
  // ---------------------------------------------------------------------------

  /** Does a new entry count on the top one instead of being pushed? */
  predicate SameAsTop(s: seq<Hold>, h: Hold) { s != [] && s[|s| - 1].cls == h.cls && h.nest != None }

  /** Adding up references runs over exactly when the sum does not fit the field. */
  lemma OverflowsIff(a: Hold, b: Hold)
    requires a.references < MaxReferences && b.references < MaxReferences
    ensures Overflows(a, b) <==> Count(a) + Count(b) >= MaxReferences
  {
  }

  /** A lock is refused for one of five reasons and no other: the stack is full before or after, the
      references do not fit, a check fails, or the nest lock is held by no entry. */
  lemma AcquireFailsIff(classOf: int -> int, s: seq<Hold>, h: Hold, pass: bool)
    requires Sound(s) && h.references < MaxReferences
    ensures Acquired(classOf, s, h, false, pass).code == 0 <==>
            || |s| >= MaxDepth
            || (SameAsTop(s, h) && Count(s[|s| - 1]) + Count(h) >= MaxReferences)
            || (!SameAsTop(s, h) && !pass)
            || (!SameAsTop(s, h) && h.nest != None && forall i :: 0 <= i < |s| ==> !Matches(classOf, s[i], h.nest))
            || (!SameAsTop(s, h) && |s| + 1 >= MaxDepth)
  {
    hide Matches, Normal;
    if s != [] {
      OverflowsIff(s[|s| - 1], h);
    }
  }

  /** A lock that is taken adds its acquisitions, and nothing else: a new entry on top, or references on
      the top entry, all entries below being left as they were. */
  lemma AcquireAdds(classOf: int -> int, s: seq<Hold>, h: Hold, pass: bool)
    requires Sound(s) && h.references < MaxReferences && Acquired(classOf, s, h, false, pass).code != 0
    ensures var o := Acquired(classOf, s, h, false, pass);
            && Sound(o.stack) && Total(o.stack) == Total(s) + Count(h)
            && o.code == (if SameAsTop(s, h) then 2 else 1)
            && (o.code == 1 ==> o.stack == s + [h])
            && (o.code == 2 ==> |o.stack| == |s| && o.stack[..|s| - 1] == s[..|s| - 1]
                                && Count(Last(o.stack)) == Count(Last(s)) + Count(h)
                                && Last(o.stack) == Last(s).(references := Last(o.stack).references))
  {
    hide Normal, IsHeld, Total, Count;
    AcquiredIsNormal(classOf, s, h, false, pass);
    if SameAsTop(s, h) {
      var below := s[..|s| - 1];
      MergeCounts(Last(s), h);
      assert s == below + [Last(s)] + [];
      TotalAround(below, Last(s), []);
      assert below + [Merge(Last(s), h)] == below + [Merge(Last(s), h)] + [];
      TotalAround(below, Merge(Last(s), h), []);
    } else {
      assert s + [h] == s + [h] + [];
      TotalAround(s, h, []);
      NothingCounts();
    }
  }

  lemma AcquireCounts(classOf: int -> int, s: seq<Hold>, h: Hold, sync: bool, pass: bool)
    requires Sound(s) && h.references < MaxReferences
    ensures var o := Acquired(classOf, s, h, sync, pass);
            !sync && o.code != 0 ==> Total(o.stack) == Total(s) + Count(h)
  {
    hide Normal, IsHeld, Total, Count, Acquired;
    if !sync && Acquired(classOf, s, h, sync, pass).code != 0 {
      AcquireAdds(classOf, s, h, pass);
    }
  }

  /** lock_sync leaves the stack alone, and says whether the lock could be taken. */
  lemma SyncLeavesAlone(classOf: int -> int, s: seq<Hold>, h: Hold, pass: bool)
    ensures Acquired(classOf, s, h, true, pass).stack == s
    ensures Acquired(classOf, s, h, true, pass).code ==
            if |s| < MaxDepth && pass && (h.nest == None || exists i :: 0 <= i < |s| && Matches(classOf, s[i], h.nest))
            then 1 else 0
  {
  }

  /** With nothing held, a lock that passes the checks is held afterwards, alone. */
  lemma FirstIsPushed(classOf: int -> int, h: Hold)
    requires h.nest == None
    ensures Acquired(classOf, [], h, false, true) == Outcome([h], 1)
  {
    assert [] + [h] == [h];
  }

  /** What find_held_lock looks for. */
  predicate Found(classOf: int -> int, s: seq<Hold>, i: int, lock: int) {
    && 0 <= i < |s| && Matches(classOf, s[i], lock)
    && (forall j :: i < j < |s| ==> !Matches(classOf, s[j], lock))
    && (forall j :: i < j < |s| ==> s[j - 1].irq == s[j].irq)
  }

  lemma OneIsFound(classOf: int -> int, s: seq<Hold>, i: int, lock: int)
    requires Found(classOf, s, i, lock)
    ensures forall j :: Found(classOf, s, j, lock) ==> j == i
  {
  }

  /** Within one irq context, a lock is found exactly when it is held. */
  lemma {:induction false} HeldIsFound(classOf: int -> int, s: seq<Hold>, lock: int)
    requires forall i :: 0 < i < |s| ==> s[i - 1].irq == s[i].irq
    ensures (exists i :: Found(classOf, s, i, lock)) <==> IsHeld(classOf, s, lock)
  {
    hide Matches;
    if IsHeld(classOf, s, lock) {
      var i := LastMatch(classOf, s, lock, |s|);
      assert Found(classOf, s, i, lock);
    }
  }

  lemma {:induction false} LastMatch(classOf: int -> int, s: seq<Hold>, lock: int, n: nat) returns (i: nat)
    requires n <= |s| && exists j :: 0 <= j < n && Matches(classOf, s[j], lock)
    ensures i < n && Matches(classOf, s[i], lock) && forall j :: i < j < n ==> !Matches(classOf, s[j], lock)
  {
    hide Matches;
    if Matches(classOf, s[n - 1], lock) {
      i := n - 1;
    } else {
      i := LastMatch(classOf, s, lock, n - 1);
    }
  }

  /** The entry a lock was counted on is found for it exactly when it is the entry of that very lock, or
      was itself taken with a nest lock, the class being the lock's first. */
  lemma TakenIsFoundIff(classOf: int -> int, s: seq<Hold>, h: Hold, pass: bool)
    requires Sound(s) && h.references < MaxReferences && Acquired(classOf, s, h, false, pass).code != 0
    ensures var t := Acquired(classOf, s, h, false, pass).stack;
            Found(classOf, t, |t| - 1, h.lock) <==>
            || !SameAsTop(s, h)
            || s[|s| - 1].lock == h.lock
            || (classOf(h.lock) == h.cls && s[|s| - 1].nest != None)
  {
    hide Normal, Total, Count, IsHeld;
    AcquireAdds(classOf, s, h, pass);
    var t := Acquired(classOf, s, h, false, pass).stack;
    if SameAsTop(s, h) {
      MergedHasReferences(s, t);
    }
  }

  lemma MergedHasReferences(s: seq<Hold>, t: seq<Hold>)
    requires s != [] && t != [] && Count(Last(t)) > Count(Last(s))
    ensures Last(t).references != 0
  {
  }

  /** A lock taken once and released at once leaves the stack as it was, but for a count of one that is
      written out once there have been two. */
  lemma ReleaseUndoes(classOf: int -> int, s: seq<Hold>, h: Hold, irq: int, pass: bool)
    requires Sound(s) && h.references <= 1 && Acquired(classOf, s, h, false, pass).code != 0
    ensures var t := Acquired(classOf, s, h, false, pass).stack;
            t != [] && Released(classOf, t, |t| - 1, irq, []) ==
            Outcome(if SameAsTop(s, h) then s[..|s| - 1] + [Last(s).(references := Count(Last(s)))] else s, 1)
  {
    hide Normal, Total, IsHeld;
    AcquireAdds(classOf, s, h, pass);
    var t := Acquired(classOf, s, h, false, pass).stack;
    if SameAsTop(s, h) {
      assert t == s[..|s| - 1] + [Last(t)];
    } else {
      assert t[..|s|] == s;
    }
  }

  /** Lock 0, taken without a nest lock, then lock 1 of the same class nested in it: it is counted on an
      entry that is not found for it, so its release is taken for a mistake. */
  lemma NestedIsLost(classOf: int -> int, info: int)
    ensures var s := [Hold(7, 0, None, 0, 0, 0, info)];
            var o := Acquired(classOf, s, Hold(7, 1, 0, 0, 0, 0, info), false, true);
            Sound(s) && o.code == 2 && forall i :: !Found(classOf, o.stack, i, 1)
  {
    var s := [Hold(7, 0, None, 0, 0, 0, info)];
    var h := Hold(7, 1, 0, 0, 0, 0, info);
    assert Acquired(classOf, s, h, false, true).stack == [Merge(s[0], h)];
  }

  // ---------------------------------------------------------------------------
  // When a release goes well
  // ---------------------------------------------------------------------------

  /** Entry `j` above the released entry `i` can be taken again. */
  predicate Retaken(classOf: int -> int, s: seq<Hold>, i: nat, irq: int, pass: seq<bool>, j: nat)
    requires i < j < |s| && |pass| == |s| - i - 1
  {
    if j == i + 1 && Joins(s, i) then Count(s[i - 1]) + Count(s[j]) < MaxReferences
    else pass[j - i - 1] && (s[j].nest == None || IsHeld(classOf, Without(s[..j], i, irq), s[j].nest))
  }

  lemma ShorterWithout(s: seq<Hold>, i: nat, irq: int, n: nat)
    requires i < n <= |s|
    ensures |Without(s[..n], i, irq)| <= n - 1
    ensures Without(s[..i + 1], i, irq) == s[..i]
  {
    var t := s[..i + 1];
    assert Moved(t[i + 1..], irq) == [] && t[..i] == s[..i];
  }

  /** One more of the locks above goes well exactly when it can be taken on what is there by then. */
  lemma RetakenIff(classOf: int -> int, s: seq<Hold>, i: nat, irq: int, pass: seq<bool>, k: nat)
    requires Sound(s) && |s| <= MaxDepth && i < |s| && 1 <= k <= |pass| == |s| - i - 1
    requires Replay(classOf, s[..i], s[i + 1..], irq, pass, k - 1).ok
    ensures Replay(classOf, s[..i], s[i + 1..], irq, pass, k).ok <==> Retaken(classOf, s, i, irq, pass, i + k)
  {
    hide Without, IsHeld, Matches, Merge;
    var r, j := Replay(classOf, s[..i], s[i + 1..], irq, pass, k - 1), i + k;
    assert s[i + 1..][k - 1] == s[j];
    ShorterWithout(s, i, irq, j);
    if k > 1 {
      ReplayIs(classOf, s, i, irq, pass, k - 1);
      assert s[..i + 1 + (k - 1)] == s[..j];
      WithoutEnds(s, i, irq, j);
      assert !(s[j].nest != None && s[j].cls == s[j - 1].cls);
    } else {
      assert r.stack == s[..i];
      if Joins(s, i) {
        OverflowsIff(s[i - 1], s[j]);
      }
    }
  }

  lemma WithoutEnds(s: seq<Hold>, i: nat, irq: int, n: nat)
    requires i + 2 <= n <= |s|
    ensures Without(s[..n], i, irq) != [] && Last(Without(s[..n], i, irq)).cls == s[n - 1].cls
  {
    var t := s[..n];
    assert t[n - 1] == s[n - 1];
  }

  lemma {:induction false} ReplayOkIff(classOf: int -> int, s: seq<Hold>, i: nat, irq: int, pass: seq<bool>, k: nat)
    requires Sound(s) && |s| <= MaxDepth && i < |s| && k <= |pass| == |s| - i - 1
    ensures Replay(classOf, s[..i], s[i + 1..], irq, pass, k).ok <==>
            forall j :: i < j <= i + k ==> Retaken(classOf, s, i, irq, pass, j)
  {
    hide Retaken, Sound, Acquired;
    if k > 0 {
      ReplayOkIff(classOf, s, i, irq, pass, k - 1);
      if Replay(classOf, s[..i], s[i + 1..], irq, pass, k - 1).ok {
        RetakenIff(classOf, s, i, irq, pass, k);
      }
    }
  }

  /** A release goes well exactly when references are left, or every lock above can be taken again: the
      first may be counted on the entry below if the references fit, all others have to pass the checks
      with their nest lock still held. */
  lemma ReleaseOkIff(classOf: int -> int, s: seq<Hold>, i: nat, irq: int, pass: seq<bool>)
    requires Sound(s) && |s| <= MaxDepth && i < |s| && |pass| == |s| - i - 1
    ensures ReleaseOk(classOf, s, i, irq, pass) <==>
            || s[i].references > 1
            || forall j :: i < j < |s| ==> Retaken(classOf, s, i, irq, pass, j)
  {
    hide Retaken, Sound, Replay;
    ReplayOkIff(classOf, s, i, irq, pass, |pass|);
  }
}
