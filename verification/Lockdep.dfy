/** The dependency graph of tests/locking/lockdep.c as it runs: the breadth-first search that enqueues
    only the first of a list of siblings, and check_prev_add, which adds a dependency after the search
    has found no circle. */
module Lockdep {

  import opened LockGraph
  import opened DepSearch
  import opened DepCircle

  datatype Outcome = GoOn | Found | Full

  /** How a round on the fields ended, against the same round as a function. */
  predicate Agrees(round: Round, outcome: Outcome, s: Search) {
    match outcome
    case GoOn => round == Next(s)
    case Found => round == Stop(Ended(Match, s))
    case Full => round.Stop? && round.end.result.QueueFull?
  }

  /** The classes accessed are those that carry the number of this search. */
  ghost predicate Marks(seen: set<int>, depGenId: seq<nat>, genId: nat) {
    && (forall c :: c in seen ==> 0 <= c < |depGenId|)
    && forall c :: 0 <= c < |depGenId| ==> (c in seen <==> depGenId[c] == genId)
  }

  lemma MarkedIs(seen: set<int>, depGenId: seq<nat>, genId: nat, c: int)
    requires Marks(seen, depGenId, genId) && 0 <= c < |depGenId|
    ensures c in seen <==> depGenId[c] == genId
    ensures Marks(seen + {c}, depGenId[c := genId], genId)
  {
  }

  lemma NoMarks(depGenId: seq<nat>, genId: nat)
    requires forall c :: 0 <= c < |depGenId| ==> depGenId[c] < genId
    ensures Marks({}, depGenId, genId)
  {
  }

  lemma ClassIs(q: Query, r: Ref)
    requires Formed(q.g) && Exists(q.g, r) && -1 <= q.root < |q.g|
    ensures -1 <= ClassAt(q, r) < |q.g|
  {
  }

  lemma TurnInvalid(q: Query, s: Search, r: Ref)
    requires ClassAt(q, r) < 0
    ensures Turn(q, s, r) == Stop(Ended(InvalidNode, s))
  {
  }

  lemma AddKeepsFormed(g: Lists, a: nat, cls: nat, dep: set<Kind>, distance: nat)
    requires Formed(g) && a < |g| && cls < |g|
    ensures Formed(g[a := AddDep(g[a], cls, dep, distance)])
  {
  }

  lemma MergeIsAddDep(list: seq<Edge>, cls: int, dep: set<Kind>, distance: nat)
    requires Find(list, cls) < |list|
    ensures var i := Find(list, cls);
            var e := Edge(list[i].cls, list[i].dep + dep, if distance == 1 then 1 else list[i].distance);
            list[i := e] == AddDep(list, cls, dep, distance)
  {
  }

  /** A class not yet in one list is not in the other. */
  lemma NewIsAddDep(after: Lists, before: Lists, a: nat, b: nat, dep: set<Kind>, distance: nat)
    requires Mirrored(after, before) && a < |after| && b < |after| && Find(after[a], b) == |after[a]|
    ensures after[a] + [Edge(b, dep, distance)] == AddDep(after[a], b, dep, distance)
    ensures before[b] + [Edge(a, Swap(dep), distance)] == AddDep(before[b], a, Swap(dep), distance)
  {
    assert Opposite(Lookup(after[a], b), Lookup(before[b], a));
  }

  /** The answers of the checks outside this model: keys still registered, irq usage allowed,
      redundancy search, stack trace saved, and free list entries found. */
  datatype Oracle = Oracle(keys: bool, irqSafe: bool, redundant: BfsResult, trace: bool, entry1: bool, entry2: bool)

  /** One request of check_prevs_add. */
  datatype Request = Request(prev: Held, next: Held, distance: nat, oracle: Oracle)

  /** The lock that is taken is not taken by a recursive reader. */
  predicate NonRecursive(r: Request) { r.next.read != 2 }

  /** locks_after with the requested dependency. */
  function With(g: Lists, r: Request): Lists
    requires r.prev.cls < |g|
  {
    g[r.prev.cls := AddDep(g[r.prev.cls], r.next.cls, CalcDep(r.prev, r.next), r.distance)]
  }

  /** A dependency on a non-recursive lock keeps the graph firm. */
  lemma WithIsFirm(g: Lists, r: Request)
    requires NonRecursive(r) && Firm(g) && r.prev.cls < |g|
    ensures Firm(With(g, r))
  {
    var g': Lists, k := With(g, r), Kind(r.prev.read == 0, true);
    assert k in CalcDep(r.prev, r.next);
    forall c, i | 0 <= c < |g'| && 0 <= i < |g'[c]| && g'[c][i].cls != c ensures !OnlyR(g'[c][i].dep) {
      if c == r.prev.cls && (i >= |g[c]| || g'[c][i] != g[c][i]) {
        assert k in g'[c][i].dep;
      } else {
        assert g'[c][i] == g[c][i];
      }
    }
  }

  lemma WithIsSafe(g: Lists, r: Request)
    requires NonRecursive(r) && Firm(g) && Acyclic(g) && r.prev.cls < |g| && !Reach(g, r.next.cls, r.prev.cls)
    ensures Firm(With(g, r)) && Acyclic(With(g, r))
  {
    hide Firm, Acyclic, Reach, HasEdge;
    WithIsFirm(g, r);
    AddDepEdges(g, r.prev.cls, r.next.cls, CalcDep(r.prev, r.next), r.distance);
    AddedEdgeIsSafe(g, With(g, r), r.prev.cls, r.next.cls);
  }

  /** An entry for a class is there exactly when there is an edge to it. */
  lemma FindIsEdge(g: Lists, a: nat, b: int)
    requires a < |g|
    ensures Find(g[a], b) < |g[a]| <==> HasEdge(g, a, b)
  {
  }

  /** What is found in one list is found in the other. */
  lemma FoundInBoth(after: Lists, before: Lists, a: nat, b: nat)
    requires Mirrored(after, before) && a < |after| && b < |after|
    ensures Find(after[a], b) < |after[a]| <==> Find(before[b], a) < |before[b]|
  {
    assert Opposite(Lookup(after[a], b), Lookup(before[b], a));
  }

  ghost predicate AllNonRecursive(rs: seq<Request>, n: nat) {
    forall i :: 0 <= i < |rs| ==> NonRecursive(rs[i]) && rs[i].prev.cls < n && rs[i].next.cls < n
  }

  /** All the requested dependencies. */
  ghost function WithAll(g: Lists, rs: seq<Request>): (g': Lists)
    requires AllNonRecursive(rs, |g|)
    ensures |g'| == |g|
  {
    if rs == [] then g else With(WithAll(g, rs[..|rs| - 1]), rs[|rs| - 1])
  }

  lemma WithIsClosed(g: Lists, r: Request)
    requires Closed(g) && r.prev.cls < |g| && r.next.cls < |g|
    ensures Closed(With(g, r))
  {
  }

  /** A dependency that closes a circle is one too many. */
  lemma WithIsUnsafe(g: Lists, r: Request)
    requires r.prev.cls < |g| && Reach(g, r.next.cls, r.prev.cls)
    ensures !Acyclic(With(g, r))
  {
    hide Acyclic, Reach, HasEdge;
    AddDepEdges(g, r.prev.cls, r.next.cls, CalcDep(r.prev, r.next), r.distance);
    AddedEdgeIsUnsafe(g, With(g, r), r.prev.cls, r.next.cls);
  }

  lemma MoreIsUnsafe(g: Lists, g': Lists)
    requires !Acyclic(g) && forall x, y :: HasEdge(g, x, y) ==> HasEdge(g', x, y)
    ensures !Acyclic(g')
  {
    hide HasEdge;
    var c :| ReachOn(g, c, c);
    var d :| HasEdge(g, c, d) && Reach(g, d, c);
    var p :| IsPath(g, p) && p[0] == d && p[|p| - 1] == c;
    assert IsPath(g', p);
    assert ReachOn(g', c, c);
  }

  /** A circle stays. */
  lemma {:induction false} CircleStays(g: Lists, rs: seq<Request>, n: nat)
    requires AllNonRecursive(rs, |g|) && n <= |rs| && !Acyclic(WithAll(g, rs[..n]))
    ensures !Acyclic(WithAll(g, rs))
  {
    hide Acyclic, HasEdge;
    var m := |rs| - 1;
    if n == |rs| {
      assert rs[..n] == rs;
    } else {
      assert rs[..m][..n] == rs[..n];
      CircleStays(g, rs[..m], n);
      var r := rs[m];
      AddDepEdges(WithAll(g, rs[..m]), r.prev.cls, r.next.cls, CalcDep(r.prev, r.next), r.distance);
      MoreIsUnsafe(WithAll(g, rs[..m]), WithAll(g, rs));
    }
  }

  /** The checks outside this model have nothing against a new dependency, nor is it redundant. */
  predicate Plain(o: Oracle) {
    o.keys && o.irqSafe && o.redundant.NoMatch? && o.trace && o.entry1 && o.entry2
  }

  predicate AllPlain(rs: seq<Request>) { forall i :: 0 <= i < |rs| ==> Plain(rs[i].oracle) }

  class DepGraph {

    /** The dependencies: locks_after and locks_before of each class. */
    var after: Lists
    var before: Lists
    /** lock_cq. */
    const element: array<Ref>
    var front: nat
    var rear: nat
    /** lockdep_dependency_gen_id, and dep_gen_id of each class. */
    var genId: nat
    var depGenId: seq<nat>
    /** The parent and only_xr fields of the entries. */
    var parent: Parents
    var onlyXr: Flags

    ghost predicate Valid()
      reads this
    {
      && |after| == |before| == |depGenId| && Formed(after) && Formed(before)
      && front < element.Length && rear < element.Length && 2 <= element.Length
      && forall c :: 0 <= c < |depGenId| ==> depGenId[c] <= genId
    }

    constructor (classes: nat, queueSize: nat)
      requires 2 <= queueSize
      ensures Valid() && fresh(element) && element.Length == queueSize
      ensures after == before == seq(classes, (i: int) => [])
      ensures Mirrored(after, before) && Firm(after) && Acyclic(after)
    {
      after, before := seq(classes, (i: int) => []), seq(classes, (i: int) => []);
      element := new Ref[queueSize](_ => Root);
      front, rear, genId := 0, 0, 0;
      depGenId := seq(classes, (i: int) => 0);
      parent, onlyXr := map[], map[];
    }

    /** The elements of the circular queue, front first. */
    ghost function Queue(): seq<Ref>
      requires front < element.Length && rear < element.Length
      reads this, element
    {
      if front <= rear then element[front..rear] else element[front..] + element[..rear]
    }

    lemma Wraps(i: nat)
      requires i < element.Length
      ensures (i + 1) % element.Length == if i + 1 == element.Length then 0 else i + 1
    {
    }

    method CqInit()
      requires Valid()
      modifies this`front, this`rear, this`genId
      ensures Valid() && Queue() == [] && genId == old(genId) + 1
    {
      front, rear := 0, 0;
      genId := genId + 1;
    }

    method CqEnqueue(e: Ref) returns (full: bool)
      requires Valid()
      modifies this`rear, element
      ensures Valid() && (full <==> old(|Queue()|) == element.Length - 1)
      ensures Queue() == if full then old(Queue()) else old(Queue()) + [e]
    {
      Wraps(rear);
      if (rear + 1) % element.Length == front {
        return true;
      }
      ghost var q := Queue();
      element[rear] := e;
      rear := (rear + 1) % element.Length;
      return false;
    }

    method CqDequeue() returns (e: Option<Ref>)
      requires Valid()
      modifies this`front
      ensures Valid() && (e.None? <==> old(Queue()) == [])
      ensures e.Some? ==> old(Queue()) == [e.value] + Queue()
      ensures e.None? ==> Queue() == []
    {
      if front == rear {
        return None;
      }
      Wraps(front);
      e := Some(element[front]);
      front := (front + 1) % element.Length;
    }

    /** The lists a search follows: locks_after, or locks_before. */
    ghost function Deps(backwards: bool): Lists
      reads this
    {
      if backwards then before else after
    }

    /** Step 4: every dependency of class `c` gets `r` as its parent, and the first is enqueued. */
    method VisitEntries(g: Lists, c: int, r: Ref) returns (full: bool)
      requires Valid() && 0 <= c < |g|
      modifies this`parent, this`rear, element
      ensures Valid()
      ensures full <==> |g[c]| > 0 && old(|Queue()|) == element.Length - 1
      ensures !full ==> parent == AdoptBy(old(parent), c, |g[c]|, r) && Queue() == old(Queue()) + FirstOf(g, c)
    {
      full := false;
      ghost var q := Queue();
      var i := 0;
      var first := true;
      while i < |g[c]|
        invariant 0 <= i <= |g[c]| && Valid() && (first <==> i == 0)
        invariant Queue() == q + if i == 0 then [] else FirstOf(g, c)
        invariant i > 0 ==> |q| != element.Length - 1
        invariant parent == AdoptBy(old(parent), c, i, r)
      {
        parent := parent[Entry(c, i) := r];
        if first {
          first := false;
          full := CqEnqueue(Entry(c, i));
          if full {
            return;
          }
        }
        i := i + 1;
      }
    }

    ghost function Now(seen: set<int>, cur: Option<Ref>): Search
      requires front < element.Length && rear < element.Length
      reads this, element
    {
      Search(seen, parent, onlyXr, Queue(), cur)
    }

    /** Steps 3 and 4, for an entry that was let through with only_xr `mine`. */
    method Accept(q: Query, lock: Ref, c: int, mine: bool, ghost seen: set<int>) returns (outcome: Outcome)
      requires Valid() && IsClass(c, |q.g|) && q.size == element.Length
      modifies this`rear, this`parent, this`onlyXr, element
      ensures Valid()
      ensures Agrees(Judge(q, old(Now(seen, Some(lock))), lock, c, mine), outcome, Now(seen, Some(lock)))
    {
      hide FirstOf, AdoptBy;
      onlyXr := onlyXr[lock := mine];
      if q.skip(c) {
        return GoOn;
      }
      if q.hit(c, mine) {
        return Found;
      }
      var full := VisitEntries(q.g, c, lock);
      return if full then Full else GoOn;
    }

    /** One round of the loop of __bfs, on the entry `lock`. */
    method Look(q: Query, lock: Ref, ghost seen: set<int>, ghost cur: Option<Ref>)
      returns (outcome: Outcome, ghost seen': set<int>)
      requires Valid() && |q.g| == |depGenId| && q.size == element.Length && IsClass(ClassAt(q, lock), |q.g|)
      requires Marks(seen, depGenId, genId) && (lock.Entry? ==> lock in parent && parent[lock] in onlyXr)
      modifies this`rear, this`depGenId, this`parent, this`onlyXr, element
      ensures Valid() && Marks(seen', depGenId, genId) && |depGenId| == old(|depGenId|)
      ensures Agrees(Turn(q, old(Now(seen, cur)), lock), outcome, Now(seen', Some(lock)))
    {
      hide Marks, Judge, Mask;
      var c := ClassAt(q, lock);
      MarkedIs(seen, depGenId, genId, c);
      if depGenId[c] == genId {
        return GoOn, seen;
      }
      depGenId := depGenId[c := genId];
      seen' := seen + {c};
      var mine := q.xr;
      if lock.Entry? {
        var dep := Mask(q.g[lock.owner][lock.index].dep, onlyXr[parent[lock]]);
        if dep == {} {
          return GoOn, seen';
        }
        mine := IsOnlyR(dep);
      }
      outcome := Accept(q, lock, c, mine, seen');
    }

    /** __bfs_next, or else __cq_dequeue. */
    method PickNext(g: Lists, cur: Option<Ref>, ghost seen: set<int>) returns (next: Option<Ref>)
      requires Valid()
      modifies this`front
      ensures Valid() && next == Pick(g, old(Now(seen, cur))) && Now(seen, cur) == Picked(g, old(Now(seen, cur)))
    {
      hide NextSibling;
      next := NextSibling(g, cur);
      if next.None? {
        ghost var q := Queue();
        next := CqDequeue();
        if next.Some? {
          assert Queue() == q[1..];
        }
      }
    }

    /** __bfs: search from class `root`, itself reached with only_xr `xr`, for one that `hit` accepts. */
    method Bfs(root: int, xr: bool, hit: (int, bool) -> bool, skip: int -> bool, backwards: bool)
      returns (result: BfsResult, target: Ref)
      requires Valid() && -1 <= root < |after|
      modifies this`front, this`rear, this`genId, this`depGenId, this`parent, this`onlyXr, element
      ensures Valid()
      ensures var q := Query(Deps(backwards), root, xr, hit, skip, element.Length);
              var end := Sweep(q, Start(old(parent), old(onlyXr)));
              && result == end.result
              && (result.Match? ==> Rightly(q, end.s) && end.s == Now(end.s.seen, Some(target)))
      ensures result.NoMatch? && Firm(Deps(backwards)) && !xr && (forall c :: !skip(c)) ==>
                forall c :: Reach(Deps(backwards), root, c) ==> !hit(c, false)
    {
      hide Searching, Firm, Reach, Marks, Formed, NextSibling, ClassAt;
      hide Classes, SiblingsLeft, Turn, Sweep, Pick, Picked, Rightly;
      var g := if backwards then before else after;
      var q := Query(g, root, xr, hit, skip, element.Length);
      CqInit();
      var full := CqEnqueue(Root);
      assert Queue() == [Root];
      target := Root;
      var cur: Option<Ref> := None;
      ghost var seen, t := {}, Trace(map[], map[]);
      ghost var end := Sweep(q, Now(seen, cur));
      SearchStarts(q, parent, onlyXr);
      SweepIsRight(q, Now(seen, cur), t);
      NoMarks(depGenId, genId);
      while true
        invariant Valid() && |g| == |depGenId| && g == Deps(backwards) && Marks(seen, depGenId, genId)
        invariant Searching(q, Now(seen, cur), t, NextSibling(g, cur)) && Sweep(q, Now(seen, cur)) == end
        decreases Classes(|g|) - seen, |Queue()|, SiblingsLeft(g, cur)
      {
        ghost var s := Now(seen, cur);
        SweepIs(q, s);
        var next := PickNext(g, cur, seen);
        if next.None? {
          return NoMatch, Root;
        }
        SearchPicks(q, s, t);
        PickIsNearer(g, s);
        ghost var s1 := Now(seen, cur);
        SearchAt(q, s1, t, next.value);
        ClassIs(q, next.value);
        var c := ClassAt(q, next.value);
        if c < 0 {
          TurnInvalid(q, s1, next.value);
          return InvalidNode, Root;
        }
        var outcome;
        ghost var seen';
        outcome, seen' := Look(q, next.value, seen, cur);
        match outcome
        case Found => return Match, next.value;
        case Full => return QueueFull, Root;
        case GoOn =>
          t := TurnKeeps(q, s1, t, next.value);
          TurnMarks(q, s1, next.value);
          cur, seen := next, seen';
      }
    }

    /** Would target -> src close a circle? */
    method CheckNoncircular(src: Held, target: Held) returns (result: BfsResult)
      requires Valid() && src.cls < |after| && target.cls < |after|
      modifies this`front, this`rear, this`genId, this`depGenId, this`parent, this`onlyXr, element
      ensures Valid()
      ensures result == Sweep(Circular(after, src, target, element.Length), Start(old(parent), old(onlyXr))).result
      ensures result.Match? ==>
                (exists es, ks :: StrongCircle(after, src, target, es, ks)) && Reach(after, src.cls, target.cls)
      ensures result.NoMatch? && Firm(after) && src.read != 2 ==> !Reach(after, src.cls, target.cls)
    {
      hide Rightly, Reach, Firm, Formed, StrongCircle, Sweep;
      AnswerIsRight(after, src, target, element.Length, parent, onlyXr);
      var entry;
      result, entry := Bfs(src.cls, src.read == 2, Conflict(target), NoSkip(), false);
      assert Deps(false) == after;
    }

    /** No circle is found from `next` back to `prev`. */
    ghost predicate Clear(r: Request)
      requires r.next.cls < |after|
      reads this
    {
      Sweep(Circular(after, r.next, r.prev, element.Length), Start(parent, onlyXr)).result.NoMatch?
    }

    /** Validate prev -> next and add it; 0 means lockdep found fault and turns itself off. */
    method CheckPrevAdd(r: Request) returns (ret: int)
      requires Valid() && Mirrored(after, before) && r.prev.cls < |after| && r.next.cls < |after|
      modifies this, element
      ensures ret != 0 ==> Valid() && Mirrored(after, before) && |after| == old(|after|)
      ensures ret == 0 || ret == 1 || ret == 2
      ensures ret == 1 || (ret == 2 && r.oracle.keys && !r.oracle.redundant.Match?) ==> after == With(old(after), r)
      ensures ret == 2 && (!r.oracle.keys || r.oracle.redundant.Match?) ==> after == old(after)
      ensures !r.oracle.keys ==> ret == 2
      ensures r.oracle.keys && ret != 0 ==> old(Clear(r)) && r.oracle.irqSafe
      ensures r.oracle.keys && old(Clear(r)) && r.oracle.irqSafe && HasEdge(old(after), r.prev.cls, r.next.cls) ==>
                ret == 1
      ensures r.oracle.keys && old(Clear(r)) && r.oracle.irqSafe && !HasEdge(old(after), r.prev.cls, r.next.cls) ==>
                (ret == 2 <==> r.oracle.redundant.Match? || Plain(r.oracle)) && ret != 1
      ensures NonRecursive(r) && Firm(old(after)) && r.oracle.keys && ret != 0 ==>
                !Reach(old(after), r.next.cls, r.prev.cls)
      ensures NonRecursive(r) && Firm(old(after)) && Closed(old(after)) && old(|after|) < element.Length ==>
                (old(Clear(r)) <==> !Reach(old(after), r.next.cls, r.prev.cls))
    {
      hide Reach, HasEdge, Firm, Closed, Formed, Mirrored, StrongCircle, Sweep;
      hide CalcDep, CalcDepB, AddDep, NoDuplicates;
      var prev, next, o := r.prev, r.next, r.oracle;
      if NonRecursive(r) && Firm(after) && Closed(after) && |after| < element.Length {
        FirmDecides(after, next, prev, element.Length, parent, onlyXr);
      }
      if !o.keys {
        return 2;
      }
      FindIsEdge(after, prev.cls, next.cls);
      FoundInBoth(after, before, prev.cls, next.cls);
      var result := CheckNoncircular(next, prev);
      if !result.NoMatch? {
        return 0;
      }
      if !o.irqSafe {
        return 0;
      }
      CalcDepsAgree(prev, next);
      AddKeepsMirrored(after, before, prev.cls, next.cls, CalcDep(prev, next), r.distance);
      AddKeepsFormed(after, prev.cls, next.cls, CalcDep(prev, next), r.distance);
      AddKeepsFormed(before, next.cls, prev.cls, CalcDepB(prev, next), r.distance);
      var i := Find(after[prev.cls], next.cls);
      if i < |after[prev.cls]| {
        MergeIsAddDep(after[prev.cls], next.cls, CalcDep(prev, next), r.distance);
        var e := after[prev.cls][i];
        e := Edge(e.cls, e.dep + CalcDep(prev, next), if r.distance == 1 then 1 else e.distance);
        after := after[prev.cls := after[prev.cls][i := e]];
        var j := Find(before[next.cls], prev.cls);
        if j < |before[next.cls]| {
          MergeIsAddDep(before[next.cls], prev.cls, CalcDepB(prev, next), r.distance);
          var b := before[next.cls][j];
          b := Edge(b.cls, b.dep + CalcDepB(prev, next), if r.distance == 1 then 1 else b.distance);
          before := before[next.cls := before[next.cls][j := b]];
          return 1;
        }
        return 0;
      }
      if o.redundant.InvalidNode? || o.redundant.QueueFull? {
        return 0;
      }
      if o.redundant.Match? {
        return 2;
      }
      if !o.trace || !o.entry1 {
        return 0;
      }
      NewIsAddDep(after, before, prev.cls, next.cls, CalcDep(prev, next), r.distance);
      after := after[prev.cls := after[prev.cls] + [Edge(next.cls, CalcDep(prev, next), r.distance)]];
      if !o.entry2 {
        return 0;
      }
      before := before[next.cls := before[next.cls] + [Edge(prev.cls, CalcDepB(prev, next), r.distance)]];
      return 2;
    }

    /** Any number of requests for locks not taken by recursive readers, until lockdep finds fault: the
        graph stays acyclic and the two lists each other's converse. When nothing else is wrong with the
        requests, and the queue has room, lockdep finds fault exactly when they close a circle. */
    method AddAll(rs: seq<Request>) returns (ok: bool)
      requires Valid() && Mirrored(after, before) && Firm(after) && Acyclic(after)
      requires AllNonRecursive(rs, |after|)
      modifies this, element
      ensures ok ==> Valid() && Mirrored(after, before) && Firm(after) && Acyclic(after)
      ensures AllPlain(rs) && Closed(old(after)) && old(|after|) < element.Length ==>
                (ok <==> Acyclic(WithAll(old(after), rs))) && (ok ==> after == WithAll(old(after), rs))
    {
      hide Mirrored, Firm, Acyclic, Formed, Closed, With, Reach, HasEdge;
      ghost var plain := AllPlain(rs) && Closed(after) && |after| < element.Length;
      for i := 0 to |rs|
        invariant Valid() && Mirrored(after, before) && Firm(after) && Acyclic(after)
        invariant |after| == old(|after|)
        invariant plain ==> Closed(after) && after == WithAll(old(after), rs[..i])
      {
        var r := rs[i];
        ghost var g := after;
        assert rs[..i + 1][..i] == rs[..i];
        var ret := CheckPrevAdd(r);
        if ret == 0 {
          if plain {
            WithIsUnsafe(g, r);
            CircleStays(old(after), rs, i + 1);
          }
          return false;
        }
        if plain {
          WithIsClosed(g, r);
        }
        if after != g {
          WithIsSafe(g, r);
        }
      }
      assert rs[..|rs|] == rs;
      return true;
    }
  }
}
