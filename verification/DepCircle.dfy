/** What lockdep asks of its search in check_noncircular (tests/locking/lockdep.c): would a dependency
    close a strong circle? When the answer can be trusted, and dependencies for which it cannot. */
module DepCircle {

  import opened LockGraph
  import opened DepSearch

  // ---------------------------------------------------------------------------
  // The question
  // ---------------------------------------------------------------------------

  /** A held lock: its class, and 0 for exclusive, 1 for a reader, 2 for a recursive reader. */
  datatype Held = Held(cls: nat, read: nat)

  /** calc_dep and calc_depb. */
  function CalcDep(prev: Held, next: Held): set<Kind> { {Kind(prev.read == 0, next.read != 2)} }

  function CalcDepB(prev: Held, next: Held): set<Kind> { {Kind(next.read != 2, prev.read == 0)} }

  lemma CalcDepsAgree(prev: Held, next: Held)
    ensures CalcDepB(prev, next) == Swap(CalcDep(prev, next))
  {
    var k := Kind(prev.read == 0, next.read != 2);
    assert Kind(k.nonRecursive, k.exclusive) in Swap({k});
  }

  /** hlock_conflict: the class of `target` is reached, and the dependency from it closes the
      circle strongly. */
  function Conflict(target: Held): (int, bool) -> bool {
    (cls: int, xr: bool) => cls == target.cls && (target.read == 0 || !xr)
  }

  /** No class is skipped. */
  function NoSkip(): int -> bool {
    (_: int) => false
  }

  /** Would target -> src close a circle? */
  function Circular(g: Lists, src: Held, target: Held, size: nat): Query {
    Query(g, src.cls, src.read == 2, Conflict(target), NoSkip(), size)
  }

  /** With target -> src added, a strong circle through both: kinds can be chosen along the walk
      from `src` back to `target`, and the new dependency fits at both ends. */
  ghost predicate StrongCircle(g: Lists, src: Held, target: Held, es: seq<Ref>, ks: seq<Kind>) {
    && Walk(g, src.cls, es) && LastClass(g, src.cls, es) == target.cls
    && Strong(g, src.read == 2, es, ks)
    && (target.read == 0 || Ending(src.read == 2, ks))
  }

  lemma ConflictIsCircle(q: Query, src: Held, target: Held, s: Search)
    requires q == Circular(q.g, src, target, q.size) && Rightly(q, s)
    ensures exists es, ks :: StrongCircle(q.g, src, target, es, ks)
  {
    var r := s.cur.value;
    var es :| Witnessed(q, s.parent, r, s.onlyXr[r], es);
    var ks: seq<Kind> :| Strong(q.g, q.xr, es, ks) && (!s.onlyXr[r] ==> Ending(q.xr, ks));
    assert StrongCircle(q.g, src, target, es, ks);
  }

  /** A strong circle is a circle. */
  lemma {:induction false} WalkReaches(g: Lists, root: int, es: seq<Ref>)
    requires Walk(g, root, es)
    ensures Reach(g, root, LastClass(g, root, es))
  {
    if es == [] {
      ReachSelf(g, root);
    } else {
      var n := |es| - 1;
      WalkReaches(g, root, es[..n]);
      var a, b := LastClass(g, root, es[..n]), LastClass(g, root, es);
      assert HasEdge(g, a, b) by {
        assert g[es[n].owner][es[n].index].cls == b;
      }
      ReachSelf(g, b);
      ReachStep(g, a, b, b);
      ReachTrans(g, root, a, b);
    }
  }

  lemma CircleReaches(g: Lists, src: Held, target: Held)
    requires exists es, ks :: StrongCircle(g, src, target, es, ks)
    ensures Reach(g, src.cls, target.cls)
  {
    var es, ks :| StrongCircle(g, src, target, es, ks);
    WalkReaches(g, src.cls, es);
  }

  /** What the answer means: a match is a strong circle, and no match, in a firm graph and for a
      source that is not a recursive reader, means that there is no circle at all. */
  lemma AnswerIsRight(g: Lists, src: Held, target: Held, size: nat, parent: Parents, onlyXr: Flags)
    ensures var end := Sweep(Circular(g, src, target, size), Start(parent, onlyXr));
            && (end.result.Match? ==>
                  (exists es, ks :: StrongCircle(g, src, target, es, ks)) && Reach(g, src.cls, target.cls))
            && (end.result.NoMatch? && Firm(g) && src.read != 2 ==> !Reach(g, src.cls, target.cls))
  {
    hide Sweep, Firm, Rightly, StrongCircle, Reach, Searching;
    var q := Circular(g, src, target, size);
    SearchStarts(q, parent, onlyXr);
    SweepIsRight(q, Start(parent, onlyXr), Trace(map[], map[]));
    if Sweep(q, Start(parent, onlyXr)).result.Match? {
      ConflictIsCircle(q, src, target, Sweep(q, Start(parent, onlyXr)).s);
      CircleReaches(g, src, target);
    }
    assert q.hit(target.cls, false);
  }

  // ---------------------------------------------------------------------------
  // When the answer is right for all
  // ---------------------------------------------------------------------------

  /** Once the only class looked for is accessed, no match can follow. */
  lemma {:induction false} TooLate(q: Query, s: Search, d: int)
    requires d in s.seen && forall c, xr :: q.hit(c, xr) ==> c == d
    ensures !Sweep(q, s).result.Match?
    decreases Classes(|q.g|) - s.seen, |s.queue|, SiblingsLeft(q.g, s.cur)
  {
    var next := Pick(q.g, s);
    if next.Some? {
      PickIsNearer(q.g, s);
      var s1 := Picked(q.g, s);
      if Turn(q, s1, next.value).Next? {
        TurnMarks(q, s1, next.value);
        TooLate(q, Turn(q, s1, next.value).s, d);
      }
    }
  }

  /** The search looks through the entries of its root, of which the `i`-th is only recursive. */
  ghost predicate Approaching(q: Query, s: Search, j: nat, i: nat, d: int) {
    && 0 <= q.root < |q.g| && j <= i < |q.g[q.root]| && Pick(q.g, s) == Some(Entry(q.root, j))
    && q.root in s.seen && d !in s.seen && q.root != d
    && q.g[q.root][i].cls == d && OnlyR(q.g[q.root][i].dep) && (forall k :: j <= k < i ==> q.g[q.root][k].cls != d)
    && Root in s.onlyXr && !s.onlyXr[Root]
    && (forall k :: 0 <= k < |q.g[q.root]| ==> Entry(q.root, k) in s.parent && s.parent[Entry(q.root, k)] == Root)
  }

  /** An entry before: on to its sibling. */
  lemma Approaches(q: Query, s: Search, j: nat, i: nat, d: int)
    requires Approaching(q, s, j, i, d) && j < i
    requires Turn(q, Picked(q.g, s), Entry(q.root, j)).Next?
    ensures Approaching(q, Turn(q, Picked(q.g, s), Entry(q.root, j)).s, j + 1, i, d)
  {
    hide DepLeft, FirstOf, AdoptBy;
    var s1, r := Picked(q.g, s), Entry(q.root, j);
    var c := ClassAt(q, r);
    AdoptVisits(s1.parent, c, |q.g[c]|, r);
    assert Turn(q, s1, r).s.cur == Some(r);
  }

  /** A class that a first dependency leads to only recursively is accessed too early. */
  lemma {:induction false} Misses(q: Query, s: Search, j: nat, i: nat, d: nat)
    requires Approaching(q, s, j, i, d) && q.hit == Conflict(Held(d, 1))
    ensures !Sweep(q, s).result.Match?
    decreases i - j
  {
    hide Approaching, Turn, Conflict;
    ApproachIs(q, s, j, i, d);
    var s1, r := Picked(q.g, s), Entry(q.root, j);
    TurnMisses(q, s, j, i, d);
    if Turn(q, s1, r).Next? {
      if j < i {
        Approaches(q, s, j, i, d);
        Misses(q, Turn(q, s1, r).s, j + 1, i, d);
      } else {
        TooLate(q, Turn(q, s1, r).s, d);
      }
    }
  }

  lemma ApproachIs(q: Query, s: Search, j: nat, i: nat, d: int)
    requires Approaching(q, s, j, i, d)
    ensures 0 <= q.root && Pick(q.g, s) == Some(Entry(q.root, j)) && j <= i
  {
  }

  lemma TurnMisses(q: Query, s: Search, j: nat, i: nat, d: nat)
    requires Approaching(q, s, j, i, d) && q.hit == Conflict(Held(d, 1))
    ensures var round := Turn(q, Picked(q.g, s), Entry(q.root, j));
            && (round.Stop? ==> !round.end.result.Match?)
            && (round.Next? && j == i ==> d in round.s.seen && forall c, xr :: q.hit(c, xr) ==> c == d)
  {
    hide FirstOf, AdoptBy;
    var s1, r := Picked(q.g, s), Entry(q.root, j);
    if j == i {
      OnlyRIs(DepLeft(q.g, s1, r));
      assert DepLeft(q.g, s1, r) == q.g[q.root][i].dep;
    }
  }

  /** So the search from `c` does not find `d`, although a dependency leads there. */
  lemma OnlyRecursiveIsMissed(g: Lists, c: nat, i: nat, size: nat, parent: Parents, onlyXr: Flags)
    requires c < |g| && i < |g[c]| && 0 <= g[c][i].cls != c && OnlyR(g[c][i].dep)
    requires forall k :: 0 <= k < i ==> g[c][k].cls != g[c][i].cls
    ensures Reach(g, c, g[c][i].cls)
    ensures !Sweep(Circular(g, Held(c, 0), Held(g[c][i].cls, 1), size), Start(parent, onlyXr)).result.Match?
  {
    hide Approaching;
    var d := g[c][i].cls;
    assert HasEdge(g, c, d);
    ReachSelf(g, d);
    ReachStep(g, c, d, d);
    var q, s := Circular(g, Held(c, 0), Held(d, 1), size), Start(parent, onlyXr);
    if Turn(q, Picked(g, s), Root).Next? {
      Departs(g, c, i, size, parent, onlyXr);
      Misses(q, Turn(q, Picked(g, s), Root).s, 0, i, d);
    }
  }

  lemma Departs(g: Lists, c: nat, i: nat, size: nat, parent: Parents, onlyXr: Flags)
    requires c < |g| && i < |g[c]| && 0 <= g[c][i].cls != c && OnlyR(g[c][i].dep)
    requires forall k :: 0 <= k < i ==> g[c][k].cls != g[c][i].cls
    requires Turn(Circular(g, Held(c, 0), Held(g[c][i].cls, 1), size), Picked(g, Start(parent, onlyXr)), Root).Next?
    ensures var q := Circular(g, Held(c, 0), Held(g[c][i].cls, 1), size);
            Approaching(q, Turn(q, Picked(g, Start(parent, onlyXr)), Root).s, 0, i, g[c][i].cls)
  {
    hide AdoptBy;
    AdoptVisits(parent, c, |g[c]|, Root);
  }

  /** Every entry names a class. */
  ghost predicate Closed(g: Lists) {
    forall c, i :: 0 <= c < |g| && 0 <= i < |g[c]| ==> 0 <= g[c][i].cls < |g|
  }

  lemma {:induction false} ClassesSize(n: nat)
    ensures |Classes(n)| <= n
  {
    if n > 0 {
      ClassesSize(n - 1);
      assert Classes(n) <= Classes(n - 1) + {n - 1} by {
        forall c | c in Classes(n) ensures c in Classes(n - 1) + {n - 1} {
          assert IsClass(c, n - 1) || c == n - 1;
        }
      }
      SubsetSize(Classes(n), Classes(n - 1) + {n - 1});
    }
  }

  lemma SubsetSize(a: set<int>, b: set<int>)
    requires a <= b
    ensures |a| <= |b|
  {
    assert b == a + (b - a);
  }

  /** Room for the first entry of every class not yet accessed. */
  ghost predicate Room(q: Query, s: Search) {
    && |Picked(q.g, s).queue| + |Classes(|q.g|) - s.seen| <= |q.g|
    && forall i :: 0 <= i < |s.queue| ==> Exists(q.g, s.queue[i])
  }

  /** One more class accessed is one less to come. */
  lemma OneLess(n: nat, seen: set<int>, c: int)
    requires IsClass(c, n) && c !in seen
    ensures |Classes(n) - (seen + {c})| == |Classes(n) - seen| - 1
  {
    assert c in Classes(n) - seen;
    assert Classes(n) - (seen + {c}) == (Classes(n) - seen) - {c};
  }

  lemma RoomAt(q: Query, s: Search, r: Ref)
    requires Closed(q.g) && IsClass(q.root, |q.g|) && Room(q, s) && Pick(q.g, s) == Some(r)
    ensures Exists(q.g, r) && IsClass(ClassAt(q, r), |q.g|)
    ensures var s1 := Picked(q.g, s);
            && |s1.queue| + |Classes(|q.g|) - s.seen| <= |q.g| && s1.seen == s.seen
            && forall i :: 0 <= i < |s1.queue| ==> Exists(q.g, s1.queue[i])
  {
    hide Classes;
  }

  lemma RoomStays(q: Query, s: Search, r: Ref)
    requires Closed(q.g) && IsClass(q.root, |q.g|) && |q.g| < q.size && Room(q, s) && Pick(q.g, s) == Some(r)
    ensures match Turn(q, Picked(q.g, s), r)
            case Stop(end) => end.result.Match?
            case Next(s') => Room(q, s')
  {
    hide DepLeft, AdoptBy, IsOnlyR, Classes, Closed, Room, Picked, Pick;
    RoomAt(q, s, r);
    var s1, c := Picked(q.g, s), ClassAt(q, r);
    if c !in s1.seen {
      OneLess(|q.g|, s1.seen, c);
    }
    if Turn(q, s1, r).Next? {
      var s' := Turn(q, s1, r).s;
      RoomIs(q, s');
    }
  }

  lemma RoomIs(q: Query, s: Search)
    requires |s.queue| + |Classes(|q.g|) - s.seen| <= |q.g|
    requires forall i :: 0 <= i < |s.queue| ==> Exists(q.g, s.queue[i])
    ensures Room(q, s)
  {
    hide Classes;
  }

  /** With room for all classes the queue never runs full. */
  lemma {:induction false} NeverFull(q: Query, s: Search)
    requires Closed(q.g) && IsClass(q.root, |q.g|) && |q.g| < q.size && Room(q, s)
    ensures Sweep(q, s).result.Match? || Sweep(q, s).result.NoMatch?
    decreases Classes(|q.g|) - s.seen, |s.queue|, SiblingsLeft(q.g, s.cur)
  {
    hide Closed, Room, Turn, Classes;
    var next := Pick(q.g, s);
    if next.Some? {
      RoomStays(q, s, next.value);
      PickIsNearer(q.g, s);
      var s1 := Picked(q.g, s);
      if Turn(q, s1, next.value).Next? {
        TurnMarks(q, s1, next.value);
        NeverFull(q, Turn(q, s1, next.value).s);
      }
    }
  }

  /** The search finds `target` from `src` exactly when it can be reached. */
  ghost predicate Decides(g: Lists, src: Held, target: Held, size: nat, parent: Parents, onlyXr: Flags) {
    Sweep(Circular(g, src, target, size), Start(parent, onlyXr)).result.Match? <==> Reach(g, src.cls, target.cls)
  }

  /** In a firm graph, from a source that is not a recursive reader: a match, or else no match. */
  lemma FirmDecides(g: Lists, src: Held, target: Held, size: nat, parent: Parents, onlyXr: Flags)
    requires Closed(g) && |g| < size && Firm(g) && src.cls < |g| && src.read != 2
    ensures Decides(g, src, target, size, parent, onlyXr)
    ensures Sweep(Circular(g, src, target, size), Start(parent, onlyXr)).result.NoMatch? <==>
            !Reach(g, src.cls, target.cls)
  {
    hide Sweep, Reach, Closed, Firm;
    AnswerIsRight(g, src, target, size, parent, onlyXr);
    ClassesSize(|g|);
    NeverFull(Circular(g, src, target, size), Start(parent, onlyXr));
  }

  /** For sources that are not recursive readers, the search decides reachability in all cases exactly
      in firm graphs: where no dependency between two classes is only recursive. */
  lemma DecidesIffFirm(g: Lists, size: nat, parent: Parents, onlyXr: Flags)
    requires Closed(g) && (forall c :: 0 <= c < |g| ==> NoDuplicates(g[c])) && |g| < size
    ensures Firm(g) <==>
            forall src: Held, target: Held :: src.cls < |g| && src.read != 2 ==>
              Decides(g, src, target, size, parent, onlyXr)
  {
    hide Sweep, Reach, Closed;
    if Firm(g) {
      forall src: Held, target: Held | src.cls < |g| && src.read != 2
        ensures Decides(g, src, target, size, parent, onlyXr)
      {
        FirmDecides(g, src, target, size, parent, onlyXr);
      }
    } else {
      var c, i :| 0 <= c < |g| && 0 <= i < |g[c]| && g[c][i].cls != c && OnlyR(g[c][i].dep);
      assert NoDuplicates(g[c]);
      EntryIsClass(g, c, i);
      OnlyRecursiveIsMissed(g, c, i, size, parent, onlyXr);
      assert !Decides(g, Held(c, 0), Held(g[c][i].cls, 1), size, parent, onlyXr);
    }
  }

  lemma EntryIsClass(g: Lists, c: nat, i: nat)
    requires Closed(g) && c < |g| && i < |g[c]|
    ensures 0 <= g[c][i].cls < |g|
  {
  }

  // ---------------------------------------------------------------------------
  // Strong circles that the search misses
  // ---------------------------------------------------------------------------

  /** From one state to the next, by way of a sibling or of the front of the queue. */
  lemma Onward(q: Query, s: Search, r: Ref, rest: seq<Ref>, s': Search)
    requires if NextSibling(q.g, s.cur).Some? then NextSibling(q.g, s.cur).value == r && rest == s.queue
             else s.queue == [r] + rest
    requires Turn(q, s.(queue := rest), r) == Next(s')
    ensures Sweep(q, s) == Sweep(q, s')
  {
    hide Turn;
    assert Picked(q.g, s) == s.(queue := rest);
  }

  /** Nothing is left. */
  lemma Exhausted(q: Query, s: Search)
    requires NextSibling(q.g, s.cur).None? && s.queue == []
    ensures Sweep(q, s).result == NoMatch
  {
  }

  /** Classes A to D are 0 to 3: A -(ER)-> B -(SN)-> C, and A -(EN)-> D -(EN)-> C. */
  function WeakFirst(): Lists {
    var er, sn := Kind(true, false), Kind(false, true);
    [[Edge(1, {er}, 1), Edge(3, {EN}, 1)], [Edge(2, {sn}, 1)], [], [Edge(2, {EN}, 1)]]
  }

  /** Would C -> A close a circle? The search goes from A. */
  function FromA(size: nat): Query { Circular(WeakFirst(), Held(0, 0), Held(2, 0), size) }

  /** It would, by way of D. */
  lemma CircleByD()
    ensures StrongCircle(WeakFirst(), Held(0, 0), Held(2, 0), [Entry(0, 1), Entry(3, 0)], [EN, EN])
  {
    var g, es := WeakFirst(), [Entry(0, 1), Entry(3, 0)];
    assert es[..1] == [Entry(0, 1)] && es[..0] == [];
    assert Walk(g, 0, es[..0]) && Walk(g, 0, es[..1]);
  }

  lemma TurnsAtAB(size: nat, p: Parents, x: Flags)
    requires size > 2
    ensures Turn(FromA(size), Search({}, p, x, [], None), Root) ==
            Next(Search({0}, AdoptBy(p, 0, 2, Root), x[Root := false], [Entry(0, 0)], Some(Root)))
    ensures Entry(0, 0) in p && p[Entry(0, 0)] == Root && Root in x && !x[Root] ==>
              Turn(FromA(size), Search({0}, p, x, [], Some(Root)), Entry(0, 0)) ==
              Next(Search({0, 1}, AdoptBy(p, 1, 1, Entry(0, 0)), x[Entry(0, 0) := true],
                          [Entry(1, 0)], Some(Entry(0, 0))))
  {
    hide AdoptBy;
    assert {} + {0} == {0} && {0} + {1} == {0, 1};
    assert Kind(true, false) in WeakFirst()[0][0].dep;
  }

  lemma TurnAtD(size: nat, p: Parents, x: Flags)
    requires size > 2 && Entry(0, 1) in p && p[Entry(0, 1)] == Root && Root in x && !x[Root]
    ensures Turn(FromA(size), Search({0, 1}, p, x, [Entry(1, 0)], Some(Entry(0, 0))), Entry(0, 1)) ==
            Next(Search({0, 1, 3}, AdoptBy(p, 3, 1, Entry(0, 1)), x[Entry(0, 1) := false],
                        [Entry(1, 0), Entry(3, 0)], Some(Entry(0, 1))))
  {
    hide AdoptBy;
    assert {0, 1} + {3} == {0, 1, 3};
    assert EN in WeakFirst()[0][1].dep;
  }

  /** The dependency B -(SN)-> C is dropped, and C is marked all the same. */
  lemma TurnsAtC(size: nat, p: Parents, x: Flags)
    requires Entry(1, 0) in p && p[Entry(1, 0)] == Entry(0, 0) && Entry(0, 0) in x && x[Entry(0, 0)]
    ensures Turn(FromA(size), Search({0, 1, 3}, p, x, [Entry(3, 0)], Some(Entry(0, 1))), Entry(1, 0)) ==
            Next(Search({0, 1, 2, 3}, p, x, [Entry(3, 0)], Some(Entry(1, 0))))
    ensures Turn(FromA(size), Search({0, 1, 2, 3}, p, x, [], Some(Entry(1, 0))), Entry(3, 0)) ==
            Next(Search({0, 1, 2, 3}, p, x, [], Some(Entry(3, 0))))
  {
    assert {0, 1, 3} + {2} == {0, 1, 2, 3};
    assert Mask(WeakFirst()[1][0].dep, true) == {};
  }

  lemma SearchUpToD(size: nat, p: Parents, x: Flags) returns (p3: Parents, x3: Flags)
    requires size > 2
    ensures Entry(1, 0) in p3 && p3[Entry(1, 0)] == Entry(0, 0) && Entry(0, 0) in x3 && x3[Entry(0, 0)]
    ensures Sweep(FromA(size), Start(p, x)) ==
            Sweep(FromA(size), Search({0, 1, 3}, p3, x3, [Entry(1, 0), Entry(3, 0)], Some(Entry(0, 1))))
  {
    hide Turn, Sweep, AdoptBy, Conflict, NoSkip;
    var q, b, d, bc, dc := FromA(size), Entry(0, 0), Entry(0, 1), Entry(1, 0), Entry(3, 0);
    var p1, x1 := AdoptBy(p, 0, 2, Root), x[Root := false];
    var p2, x2 := AdoptBy(p1, 1, 1, b), x1[b := true];
    p3, x3 := AdoptBy(p2, 3, 1, d), x2[d := false];
    AdoptVisits(p, 0, 2, Root);
    AdoptVisits(p1, 1, 1, b);
    AdoptVisits(p2, 3, 1, d);
    TurnsAtAB(size, p, x);
    TurnsAtAB(size, p1, x1);
    TurnAtD(size, p2, x2);
    var s1, s2 := Search({0}, p1, x1, [b], Some(Root)), Search({0, 1}, p2, x2, [bc], Some(b));
    Onward(q, Start(p, x), Root, [], s1);
    Onward(q, s1, b, [], s2);
    Onward(q, s2, d, [bc], Search({0, 1, 3}, p3, x3, [bc, dc], Some(d)));
  }

  /** Marking a class before filtering loses strong paths: no match, in spite of the circle. */
  lemma CircleIsMissed(size: nat, p: Parents, x: Flags)
    requires size > 2
    ensures StrongCircle(WeakFirst(), Held(0, 0), Held(2, 0), [Entry(0, 1), Entry(3, 0)], [EN, EN])
    ensures Sweep(Circular(WeakFirst(), Held(0, 0), Held(2, 0), size), Start(p, x)).result == NoMatch
  {
    hide Turn, Sweep, Conflict, NoSkip, StrongCircle;
    CircleByD();
    var p3, x3 := SearchUpToD(size, p, x);
    TurnsAtC(size, p3, x3);
    var q, bc, dc := FromA(size), Entry(1, 0), Entry(3, 0);
    var s3 := Search({0, 1, 3}, p3, x3, [bc, dc], Some(Entry(0, 1)));
    var s4, s5 := Search({0, 1, 2, 3}, p3, x3, [dc], Some(bc)), Search({0, 1, 2, 3}, p3, x3, [], Some(dc));
    Onward(q, s3, bc, [dc], s4);
    Onward(q, s4, dc, [], s5);
    Exhausted(q, s5);
  }

  /** Classes A, B and D are 0 to 2: A -(SN)-> B, and A -(EN)-> D -(EN)-> B. */
  function SharedFirst(): Lists {
    [[Edge(1, {Kind(false, true)}, 1), Edge(2, {EN}, 1)], [], [Edge(1, {EN}, 1)]]
  }

  /** Would B -> A close a circle, where A is held by a recursive reader? */
  function FromReader(size: nat): Query { Circular(SharedFirst(), Held(0, 2), Held(1, 0), size) }

  lemma ReaderCircle()
    ensures StrongCircle(SharedFirst(), Held(0, 2), Held(1, 0), [Entry(0, 1), Entry(2, 0)], [EN, EN])
    ensures Firm(SharedFirst())
  {
    var g, es := SharedFirst(), [Entry(0, 1), Entry(2, 0)];
    assert es[..1] == [Entry(0, 1)] && es[..0] == [];
    assert Walk(g, 0, es[..0]) && Walk(g, 0, es[..1]);
    assert Kind(false, true) in g[0][0].dep && EN in g[0][1].dep && EN in g[2][0].dep;
  }

  /** The dependency A -(SN)-> B is dropped, and B is marked all the same. */
  lemma ReaderTurns(size: nat, p: Parents, x: Flags)
    requires size > 1
    ensures Turn(FromReader(size), Search({}, p, x, [], None), Root) ==
            Next(Search({0}, AdoptBy(p, 0, 2, Root), x[Root := true], [Entry(0, 0)], Some(Root)))
    ensures Entry(0, 0) in p && p[Entry(0, 0)] == Root && Root in x && x[Root] ==>
              Turn(FromReader(size), Search({0}, p, x, [], Some(Root)), Entry(0, 0)) ==
              Next(Search({0, 1}, p, x, [], Some(Entry(0, 0))))
    ensures Entry(0, 1) in p && p[Entry(0, 1)] == Root && Root in x && x[Root] ==>
              Turn(FromReader(size), Search({0, 1}, p, x, [], Some(Entry(0, 0))), Entry(0, 1)) ==
              Next(Search({0, 1, 2}, AdoptBy(p, 2, 1, Entry(0, 1)), x[Entry(0, 1) := false],
                          [Entry(2, 0)], Some(Entry(0, 1))))
    ensures Turn(FromReader(size), Search({0, 1, 2}, p, x, [], Some(Entry(0, 1))), Entry(2, 0)) ==
            Next(Search({0, 1, 2}, p, x, [], Some(Entry(2, 0))))
  {
    hide AdoptBy;
    assert {} + {0} == {0} && {0} + {1} == {0, 1} && {0, 1} + {2} == {0, 1, 2};
    assert Mask(SharedFirst()[0][0].dep, true) == {};
    assert EN in Mask(SharedFirst()[0][1].dep, true);
  }

  /** In a firm graph too, when the source is a recursive reader. */
  lemma ReaderIsMissed(size: nat, p: Parents, x: Flags)
    requires size > 1
    ensures Firm(SharedFirst())
    ensures StrongCircle(SharedFirst(), Held(0, 2), Held(1, 0), [Entry(0, 1), Entry(2, 0)], [EN, EN])
    ensures Sweep(Circular(SharedFirst(), Held(0, 2), Held(1, 0), size), Start(p, x)).result == NoMatch
  {
    hide Turn, Sweep, AdoptBy, Conflict, NoSkip, StrongCircle, Firm;
    ReaderCircle();
    var q, b, d, db := FromReader(size), Entry(0, 0), Entry(0, 1), Entry(2, 0);
    var p1, x1 := AdoptBy(p, 0, 2, Root), x[Root := true];
    var p2, x2 := AdoptBy(p1, 2, 1, d), x1[d := false];
    AdoptVisits(p, 0, 2, Root);
    ReaderTurns(size, p, x);
    ReaderTurns(size, p1, x1);
    ReaderTurns(size, p2, x2);
    var s1, s2 := Search({0}, p1, x1, [b], Some(Root)), Search({0, 1}, p1, x1, [], Some(b));
    var s3 := Search({0, 1, 2}, p2, x2, [db], Some(d));
    Onward(q, Start(p, x), Root, [], s1);
    Onward(q, s1, b, [], s2);
    Onward(q, s2, d, [], s3);
    Onward(q, s3, db, [], s3.(queue := [], cur := Some(db)));
    Exhausted(q, s3.(queue := [], cur := Some(db)));
  }
}
