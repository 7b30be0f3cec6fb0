/** pv_hash of tests/locking/qspinlock_paravirt.h can run past the last slot of its table although in
    every state some slot is free: a run in which the free slot is never where the probe is. */
module PvHashMiss {

  import opened PvQspinlock

  // ---------------------------------------------------------------------------
  // Runs with no more active contexts than slots
  // ---------------------------------------------------------------------------

  /** There are at least as many slots as active contexts. */
  ghost predicate Roomy(s: System) {
    |s.local| == |s.word| && |Active(s)| <= |s.slots|
  }

  ghost predicate IsWay(way: seq<System>, s: System, t: System) {
    && |way| > 0 && way[0] == s && way[|way| - 1] == t
    && (forall i :: 0 <= i < |way| - 1 ==> Next(way[i], way[i + 1]))
    && forall i :: 0 <= i < |way| ==> Roomy(way[i])
  }

  /** From `s` some interleaving leads to `t`, with room in the table all the way. */
  ghost predicate Leads(s: System, t: System) {
    exists way :: IsWay(way, s, t)
  }

  lemma LeadsNowhere(s: System)
    requires Roomy(s)
    ensures Leads(s, s)
  {
    assert IsWay([s], s, s);
  }

  lemma LeadsOn(s: System, t: System, u: System)
    requires Leads(s, t) && Next(t, u) && Roomy(u)
    ensures Leads(s, u)
  {
    hide Next, Roomy;
    var way :| IsWay(way, s, t);
    var way' := way + [u];
    forall i | 0 <= i < |way'| - 1 ensures Next(way'[i], way'[i + 1]) {
      if i < |way| - 1 {
        assert Next(way[i], way[i + 1]);
      }
    }
    assert IsWay(way', s, u);
  }

  lemma LeadsFurther(s: System, t: System, u: System)
    requires Leads(s, t) && Leads(t, u)
    ensures Leads(s, u)
  {
    hide Next, Roomy;
    var a :| IsWay(a, s, t);
    var b :| IsWay(b, t, u);
    var c := a + b[1..];
    forall i | 0 <= i < |c| - 1 ensures Next(c[i], c[i + 1]) {
      if i < |a| - 1 {
        assert Next(a[i], a[i + 1]);
      } else {
        assert Next(b[i - |a| + 1], b[i - |a| + 2]);
      }
    }
    forall i | 0 <= i < |c| ensures Roomy(c[i]) {
      if i >= |a| {
        assert c[i] == b[i - |a| + 1];
      }
    }
    assert IsWay(c, s, u);
  }

  // ---------------------------------------------------------------------------
  // The system
  // ---------------------------------------------------------------------------

  const Rest := Local(Idle, None, None, NotYet, 0, None, Zero)
  const Unused := Node(None, false, Running)
  const Held1 := Zero.(locked := Taken)

  /** Four locks with two contexts each and a table of three slots. The probes of lock 0 start at the
      first slot, those of locks 1 to 3 at one slot each. */
  function Begin(): System {
    System([Zero, Zero, Zero, Zero], [0, 0, 1, 2], [Slot(None, None), Slot(None, None), Slot(None, None)],
           [[Unused, Unused], [Unused, Unused], [Unused, Unused], [Unused, Unused]],
           [[Rest, Rest], [Rest, Rest], [Rest, Rest], [Rest, Rest]])
  }

  ghost predicate Sized(s: System) {
    Whole(s) && |s.word| == 4 && s.base == [0, 0, 1, 2] && |s.slots| == 3
    && forall l :: 0 <= l < 4 ==> |s.local[l]| == 2
  }

  /** Only context 1 of lock 0 and those of lock `l` are doing anything. */
  ghost predicate Quiet(s: System, l: nat)
    requires Sized(s)
  {
    forall m, c :: 0 <= m < 4 && 0 <= c < 2 && m != l && (m != 0 || c != 1) ==> s.local[m][c].pc.Idle?
  }

  lemma QuietIsRoomy(s: System, l: nat)
    requires Sized(s) && Quiet(s, l) && l < 4
    ensures Roomy(s)
  {
    assert Active(s) <= {(0, 1), (l, 0), (l, 1)};
    Fewer(Active(s), {(0, 1), (l, 0), (l, 1)});
  }

  lemma Fewer(a: set<(int, int)>, b: set<(int, int)>)
    requires a <= b
    ensures |a| <= |b|
  {
    assert b == a + (b - a);
  }

  /** Lock `l` of `s` could look like `v`. */
  ghost predicate Fitting(s: System, l: nat, v: View)
    requires Sized(s) && l < 4
  {
    v.lock == l && v.base == s.base[l] && |v.slots| == 3 && |v.node| == |v.local| == 2
  }

  /** And its contexts can bring it there. */
  ghost predicate Can(s: System, l: nat, v: View) {
    Sized(s) && l < 4 && Quiet(s, l) && Fitting(s, l, v) && Leads(s, Update(s, l, v))
  }

  lemma CanStay(s: System, l: nat)
    requires Sized(s) && l < 4 && Quiet(s, l)
    ensures Can(s, l, Look(s, l))
  {
    QuietIsRoomy(s, l);
    LeadsNowhere(s);
    assert Update(s, l, Look(s, l)) == s;
  }

  lemma UpdateFits(s: System, l: nat, v: View)
    requires Sized(s) && l < 4 && Quiet(s, l) && Fitting(s, l, v)
    ensures Sized(Update(s, l, v)) && Quiet(Update(s, l, v), l) && Look(Update(s, l, v), l) == v
  {
  }

  /** One more step. */
  lemma Then(s: System, l: nat, v: View, c: nat, x: Choice)
    requires Can(s, l, v) && c < 2 && Shaped(v) && CtxOk(v, c)
    ensures Can(s, l, Step(v, c, x))
  {
    hide Step, CtxOk, Leads, Quiet;
    var v' := Step(v, c, x);
    UpdateFits(s, l, v);
    UpdateFits(s, l, v');
    var t, t' := Update(s, l, v), Update(s, l, v');
    assert t' == Update(t, l, v');
    assert NextAt(t, t', l, c, x);
    QuietIsRoomy(t', l);
    LeadsOn(s, t, t');
  }

  // ---------------------------------------------------------------------------
  // One lock
  // ---------------------------------------------------------------------------

  const Go := Choice(true, true)
  const GiveUp := Choice(true, false)

  ghost predicate Fresh(u: View) {
    u.word == Zero && u.local == [Rest, Rest] && u.node == [Unused, Unused] && u.base < |u.slots|
  }

  /** Context 1 is to look for a slot; context 0, for which it had to queue, has gone. */
  function AtScan(u: View): View {
    u.(word := Word(1, false, Free), local := [Rest, Rest.(pc := Heading(Scan), val := Held1)])
  }

  /** Context 0 takes the lock, and context 1 comes up to the swap of the tail. */
  lemma Queues(s: System, l: nat, u: View)
    requires Can(s, l, u) && Fresh(u)
    ensures Can(s, l, u.(word := Held1, local := [Rest.(pc := Holding(Release)), Rest.(pc := SwapTail, val := Held1)]))
  {
    hide Can;
    var h := Rest.(pc := Holding(Release));
    var v := u.(local := [Rest.(pc := Fast), Rest]);
    Then(s, l, u, 0, Go);
    assert Step(u, 0, Go) == v;
    Then(s, l, v, 0, Go);
    assert Step(v, 0, Go) == u.(word := Held1, local := [h, Rest]);
    v := u.(word := Held1, local := [h, Rest]);
    Then(s, l, v, 1, Go);
    assert Step(v, 1, Go) == v.(local := [h, Rest.(pc := Fast)]);
    v := v.(local := [h, Rest.(pc := Fast)]);
    Then(s, l, v, 1, Go);
    assert Step(v, 1, Go) == v.(local := [h, Rest.(pc := StealRead(true))]);
    v := v.(local := [h, Rest.(pc := StealRead(true))]);
    Then(s, l, v, 1, Go);
    assert Step(v, 1, Go) == v.(local := [h, Rest.(pc := StealCas(true), val := Held1)]);
    v := v.(local := [h, Rest.(pc := StealCas(true), val := Held1)]);
    Then(s, l, v, 1, Go);
    assert Step(v, 1, Go) == v.(local := [h, Rest.(pc := SwapTail, val := Held1)]);
  }

  /** It becomes queue head, the lock is released, and it gives up spinning just then. */
  lemma BecomesHead(s: System, l: nat, u: View)
    requires Can(s, l, u.(word := Held1, local := [Rest.(pc := Holding(Release)), Rest.(pc := SwapTail, val := Held1)]))
    requires Fresh(u)
    ensures Can(s, l, u.(word := Word(1, false, Free), local := [Rest,
                                         Rest.(pc := Heading(MarkRunning), val := Held1)]))
  {
    hide Can;
    var h, me := Rest.(pc := Holding(Release)), Rest.(val := Held1);
    var v := u.(word := Held1, local := [h, me.(pc := SwapTail)]);
    Then(s, l, v, 1, Go);
    assert Step(v, 1, Go) == v.(word := Held1.(tail := 1), local := [h, me.(pc := ReadState)]);
    v := v.(word := Held1.(tail := 1), local := [h, me.(pc := ReadState)]);
    Then(s, l, v, 0, Go);
    assert Step(v, 0, Go) == v.(word := Word(1, false, Free), local := [Rest, me.(pc := ReadState)]);
    v := v.(word := Word(1, false, Free), local := [Rest, me.(pc := ReadState)]);
    Then(s, l, v, 1, Go);
    assert Step(v, 1, Go) == v.(local := [Rest, me.(pc := Heading(MarkRunning))]);
  }

  lemma ComesToScan(s: System, l: nat, u: View)
    requires Can(s, l, u) && Fresh(u)
    ensures Can(s, l, AtScan(u))
  {
    hide Can;
    Queues(s, l, u);
    BecomesHead(s, l, u);
    var me := Rest.(val := Held1);
    var v := u.(word := Word(1, false, Free), local := [Rest, me.(pc := Heading(MarkRunning))]);
    Then(s, l, v, 1, Go);
    assert Step(v, 1, Go) == v.(local := [Rest, me.(pc := Heading(SetPending))]);
    v := v.(local := [Rest, me.(pc := Heading(SetPending))]);
    Then(s, l, v, 1, Go);
    assert Step(v, 1, Go) == v.(word := Word(1, true, Free), local := [Rest, me.(pc := Heading(TryLock))]);
    v := v.(word := Word(1, true, Free), local := [Rest, me.(pc := Heading(TryLock))]);
    Then(s, l, v, 1, GiveUp);
    assert Step(v, 1, GiveUp) == v.(local := [Rest, me.(pc := Heading(ClearPending))]);
    v := v.(local := [Rest, me.(pc := Heading(ClearPending))]);
    Then(s, l, v, 1, Go);
    assert Step(v, 1, Go) == AtScan(u);
  }

  /** It takes the slot where its probes start. */
  function AtPut(u: View): View
    requires u.base < |u.slots|
  {
    AtScan(u).(slots := u.slots[u.base := u.slots[u.base].(lock := u.lock)],
               local := [Rest, Rest.(pc := Heading(PutNode), val := Held1, slot := u.base)])
  }

  lemma TakesSlot(s: System, l: nat, u: View)
    requires Can(s, l, u) && Fresh(u) && u.slots[u.base].lock == None
    ensures Can(s, l, AtPut(u))
  {
    hide Can;
    ComesToScan(s, l, u);
    Then(s, l, AtScan(u), 1, Go);
    assert Probe(u.base, |u.slots|, 0) == u.base;
    assert Step(AtScan(u), 1, Go) == AtPut(u);
  }

  /** It finds the lock free after all, gives the slot back, and takes and releases the lock. */
  function AtEnd(u: View): View
    requires u.base < |u.slots|
  {
    u.(slots := u.slots[u.base := Slot(None, 1)],
       local := [Rest, Rest.(lp := Own, val := Word(1, false, Taken), slot := u.base)])
  }

  /** With its node in the slot, it finds the lock free when it exchanges the byte. */
  function AtTaken(u: View): View
    requires u.base < |u.slots|
  {
    AtPut(u).(word := Word(1, false, Slow), slots := u.slots[u.base := Slot(u.lock, 1)],
              local := [Rest, Rest.(pc := Claiming(MarkTaken), lp := Own, val := Held1, slot := u.base)])
  }

  lemma FindsItFree(s: System, l: nat, u: View)
    requires Fresh(u) && Can(s, l, AtPut(u)) && l == u.lock
    ensures Can(s, l, AtTaken(u))
  {
    hide Can;
    var v := AtPut(u);
    var v' := v.(slots := u.slots[u.base := Slot(l, 1)],
                 local := [Rest, Rest.(pc := Heading(Exchange), lp := Own, val := Held1, slot := u.base)]);
    Then(s, l, v, 1, Go);
    assert Step(v, 1, Go) == v';
    Then(s, l, v', 1, Go);
    assert Step(v', 1, Go) == AtTaken(u);
  }

  function AtReadWord(u: View): View
    requires u.base < |u.slots|
  {
    AtTaken(u).(word := Word(1, false, Taken), slots := u.slots[u.base := Slot(None, 1)],
                local := [Rest, Rest.(pc := Claiming(ReadWord), lp := Own, val := Held1, slot := u.base)])
  }

  lemma GivesSlotBack(s: System, l: nat, u: View)
    requires Fresh(u) && Can(s, l, AtPut(u)) && l == u.lock
    ensures Can(s, l, AtReadWord(u))
  {
    hide Can;
    FindsItFree(s, l, u);
    var v := AtTaken(u);
    var v' := v.(word := Word(1, false, Taken),
                 local := [Rest, Rest.(pc := Claiming(Unenter), lp := Own, val := Held1, slot := u.base)]);
    Then(s, l, v, 1, Go);
    assert Step(v, 1, Go) == v';
    Then(s, l, v', 1, Go);
    assert Step(v', 1, Go) == AtReadWord(u);
  }

  lemma ComesToEnd(s: System, l: nat, u: View)
    requires Fresh(u) && Can(s, l, AtPut(u)) && l == u.lock
    ensures Can(s, l, AtEnd(u))
  {
    hide Can;
    GivesSlotBack(s, l, u);
    var v, me := AtReadWord(u), Rest.(lp := Own, val := Word(1, false, Taken), slot := u.base);
    Then(s, l, v, 1, Go);
    assert Step(v, 1, Go) == v.(local := [Rest, me.(pc := Claiming(ClaimAll))]);
    v := v.(local := [Rest, me.(pc := Claiming(ClaimAll))]);
    Then(s, l, v, 1, Go);
    assert Step(v, 1, Go) == v.(word := Held1, local := [Rest, me.(pc := Holding(Release))]);
    v := v.(word := Held1, local := [Rest, me.(pc := Holding(Release))]);
    Then(s, l, v, 1, Go);
    assert Step(v, 1, Go) == AtEnd(u);
  }

  // ---------------------------------------------------------------------------
  // The run
  // ---------------------------------------------------------------------------

  /** Context 1 of lock 0 has found the first `k` slots full, and yet all slots are free; the locks
      that come after have not been used. */
  ghost predicate Missing(s: System, k: nat) {
    && Sized(s) && Quiet(s, 0) && s.local[0] == [Rest, Rest.(pc := Heading(Scan), val := Held1, off := k)]
    && (forall j :: 0 <= j < 3 ==> s.slots[j].lock == None)
    && forall l :: k < l < 4 ==> Fresh(Look(s, l))
  }

  lemma Starts() returns (s: System)
    ensures Leads(Begin(), s) && Missing(s, 0)
  {
    hide Leads, Quiet;
    var u := Look(Begin(), 0);
    BeginIsQuiet();
    CanStay(Begin(), 0);
    ComesToScan(Begin(), 0, u);
    s := Update(Begin(), 0, AtScan(u));
    UpdateFits(Begin(), 0, AtScan(u));
  }

  lemma BeginIsQuiet()
    ensures Init(Begin()) && Sized(Begin()) && Quiet(Begin(), 0)
  {
  }

  /** Lock `k + 1` has its entry in the slot that is next. */
  lemma SlotFills(s0: System, s: System, k: nat) returns (t: System)
    requires Leads(s0, s) && Missing(s, k) && k < 3
    ensures Leads(s0, t) && Sized(t) && Quiet(t, k + 1) && t.slots[k].lock == k + 1
    ensures Fresh(Look(s, k + 1)) && Look(s, k + 1).base < 3 && t == Update(s, k + 1, AtPut(Look(s, k + 1)))
  {
    hide Leads;
    var l, u := k + 1, Look(s, k + 1);
    QuietElse(s, l);
    CanStay(s, l);
    TakesSlot(s, l, u);
    t := Update(s, l, AtPut(u));
    UpdateFits(s, l, AtPut(u));
    LeadsFurther(s0, s, t);
  }

  lemma QuietElse(s: System, l: nat)
    requires Sized(s) && Quiet(s, 0) && s.local[0][0].pc.Idle? && 0 < l < 4
    ensures Quiet(s, l)
  {
  }

  /** The probe finds it full. */
  lemma SlotIsPassed(s0: System, s: System, k: nat) returns (t: System)
    requires Leads(s0, s) && Sized(s) && k < 3 && Quiet(s, k + 1) && s.slots[k].lock != None
    requires s.local[0] == [Rest, Rest.(pc := Heading(Scan), val := Held1, off := k)]
    ensures Leads(s0, t) && Sized(t) && Quiet(t, k + 1)
    ensures t == s.(local := s.local[0 := [Rest, Rest.(pc := Heading(Scan), val := Held1, off := k + 1)]])
  {
    hide Leads;
    var v := Look(s, 0);
    t := s.(local := s.local[0 := [Rest, Rest.(pc := Heading(Scan), val := Held1, off := k + 1)]]);
    assert Probe(0, 3, k) == k;
    assert Step(v, 1, Go).local == t.local[0];
    assert t == Update(s, 0, Step(v, 1, Go));
    assert NextAt(s, t, 0, 1, Go);
    QuietIsRoomy(t, k + 1);
    LeadsOn(s0, s, t);
  }

  /** And the slot is given back. */
  lemma SlotEmpties(s0: System, s: System, u: View, k: nat) returns (t: System)
    requires Leads(s0, s) && Sized(s) && k < 3 && Quiet(s, k + 1)
    requires Fresh(u) && u.lock == k + 1 && Look(s, k + 1) == AtPut(u)
    ensures Leads(s0, t) && t == Update(s, k + 1, AtEnd(u)) && Sized(t) && Quiet(t, k + 1)
  {
    hide Leads;
    CanStay(s, k + 1);
    ComesToEnd(s, k + 1, u);
    t := Update(s, k + 1, AtEnd(u));
    UpdateFits(s, k + 1, AtEnd(u));
    LeadsFurther(s0, s, t);
  }

  lemma Misses(s0: System, s: System, k: nat) returns (t: System)
    requires Leads(s0, s) && Missing(s, k) && k < 3
    ensures Leads(s0, t) && Missing(t, k + 1)
  {
    hide Leads, Roomy;
    var u := Look(s, k + 1);
    var s1 := SlotFills(s0, s, k);
    var s2 := SlotIsPassed(s0, s1, k);
    t := SlotEmpties(s0, s2, u, k);
    forall l | k + 1 < l < 4 ensures Fresh(Look(t, l)) {
      assert Fresh(Look(s, l));
    }
  }

  /** A run in which context 1 of lock 0 ends up past the last slot of the table, where the code gives
      up, although there are never more active contexts than slots, and all slots are free by then. */
  lemma ProbeRunsOut() returns (run: seq<System>)
    ensures Run(run) && forall i :: 0 <= i < |run| ==> Roomy(run[i])
    ensures var s := run[|run| - 1];
            && Sized(s) && s.local[0][1].pc == Heading(Scan) && s.local[0][1].off == |s.slots|
            && forall j :: 0 <= j < |s.slots| ==> s.slots[j].lock == None
  {
    hide Leads, Roomy, Init;
    BeginIsQuiet();
    var s0 := Starts();
    var s1 := Misses(Begin(), s0, 0);
    var s2 := Misses(Begin(), s1, 1);
    var s3 := Misses(Begin(), s2, 2);
    run := WayTo(Begin(), s3);
  }

  lemma WayTo(s: System, t: System) returns (way: seq<System>)
    requires Leads(s, t)
    ensures IsWay(way, s, t)
  {
    way :| IsWay(way, s, t);
  }
}
