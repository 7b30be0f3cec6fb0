/** The dependency graph of tests/locking/lockdep.c on paper: edges with read/write kinds, paths,
    strong paths, and what adding an edge does to both. */
module LockGraph {

  /** The kind of a dependency prev -> next: is prev exclusive, and is next non-recursive?
      The four DEP_*_BITs are SR, ER, SN and EN. */
  datatype Kind = Kind(exclusive: bool, nonRecursive: bool)

  const EN := Kind(true, true)

  /** An entry of locks_after or locks_before; class -1 is NULL. */
  datatype Edge = Edge(cls: int, dep: set<Kind>, distance: nat)

  /** locks_after or locks_before of every class. */
  type Lists = seq<seq<Edge>>

  // ---------------------------------------------------------------------------
  // Plain paths
  // ---------------------------------------------------------------------------

  ghost predicate HasEdge(g: Lists, a: int, b: int) {
    0 <= a < |g| && exists i :: 0 <= i < |g[a]| && g[a][i].cls == b
  }

  ghost predicate IsPath(g: Lists, p: seq<int>) {
    |p| > 0 && forall i :: 0 <= i < |p| - 1 ==> HasEdge(g, p[i], p[i + 1])
  }

  ghost predicate Reach(g: Lists, a: int, b: int) {
    exists p :: IsPath(g, p) && p[0] == a && p[|p| - 1] == b
  }

  /** Reach by at least one edge. */
  ghost predicate ReachOn(g: Lists, a: int, b: int) {
    exists c :: HasEdge(g, a, c) && Reach(g, c, b)
  }

  ghost predicate Acyclic(g: Lists) {
    forall c :: !ReachOn(g, c, c)
  }

  lemma ReachSelf(g: Lists, a: int)
    ensures Reach(g, a, a)
  {
    assert IsPath(g, [a]);
  }

  lemma ReachStep(g: Lists, a: int, b: int, c: int)
    requires HasEdge(g, a, b) && Reach(g, b, c)
    ensures Reach(g, a, c)
  {
    var p :| IsPath(g, p) && p[0] == b && p[|p| - 1] == c;
    var q := [a] + p;
    forall i | 0 <= i < |q| - 1 ensures HasEdge(g, q[i], q[i + 1]) {
      assert i > 0 ==> q[i] == p[i - 1];
    }
    assert IsPath(g, q);
  }

  lemma {:induction false} ReachTrans(g: Lists, a: int, b: int, c: int)
    requires Reach(g, a, b) && Reach(g, b, c)
    ensures Reach(g, a, c)
  {
    var p :| IsPath(g, p) && p[0] == a && p[|p| - 1] == b;
    var q :| IsPath(g, q) && q[0] == b && q[|q| - 1] == c;
    var r := p + q[1..];
    forall i | 0 <= i < |r| - 1 ensures HasEdge(g, r[i], r[i + 1]) {
      if i < |p| - 1 {
        assert r[i] == p[i] && r[i + 1] == p[i + 1];
      } else {
        assert r[i] == q[i - |p| + 1] && r[i + 1] == q[i - |p| + 2];
      }
    }
    assert IsPath(g, r) && r[|r| - 1] == c;
  }

  /** A set closed under edges keeps all that can be reached from it. */
  lemma {:induction false} ClosedReach(g: Lists, s: set<int>, a: int, b: int)
    requires a in s && Reach(g, a, b)
    requires forall x, y :: x in s && HasEdge(g, x, y) ==> y in s
    ensures b in s
  {
    var p :| IsPath(g, p) && p[0] == a && p[|p| - 1] == b;
    ClosedPath(g, s, p);
  }

  lemma {:induction false} ClosedPath(g: Lists, s: set<int>, p: seq<int>)
    requires IsPath(g, p) && p[0] in s
    requires forall x, y :: x in s && HasEdge(g, x, y) ==> y in s
    ensures p[|p| - 1] in s
  {
    if |p| > 1 {
      assert HasEdge(g, p[0], p[1]);
      ClosedPath(g, s, p[1..]);
    }
  }

  // ---------------------------------------------------------------------------
  // Adding an edge
  // ---------------------------------------------------------------------------

  /** `g'` is `g` and perhaps the edge from `a` to `b`. */
  ghost predicate OneMore(g: Lists, g': Lists, a: int, b: int) {
    forall x, y :: HasEdge(g', x, y) ==> HasEdge(g, x, y) || (x == a && y == b)
  }

  lemma {:induction false} PathThrough(g: Lists, g': Lists, a: int, b: int, p: seq<int>)
    requires OneMore(g, g', a, b) && IsPath(g', p)
    ensures Reach(g, p[0], p[|p| - 1]) || (Reach(g, p[0], a) && Reach(g, b, p[|p| - 1]))
  {
    if |p| == 1 {
      ReachSelf(g, p[0]);
    } else {
      PathThrough(g, g', a, b, p[1..]);
      ReachSelf(g, a);
      assert HasEdge(g', p[0], p[1]);
      if HasEdge(g, p[0], p[1]) {
        if Reach(g, p[1], p[|p| - 1]) {
          ReachStep(g, p[0], p[1], p[|p| - 1]);
        } else {
          ReachStep(g, p[0], p[1], a);
        }
      }
    }
  }

  /** The edge closes a cycle exactly when its end reached its start. */
  lemma AddedEdgeIsSafe(g: Lists, g': Lists, a: int, b: int)
    requires Acyclic(g) && OneMore(g, g', a, b)
    requires !Reach(g, b, a)
    ensures Acyclic(g')
  {
    forall c ensures !ReachOn(g', c, c) {
      if ReachOn(g', c, c) {
        var d :| HasEdge(g', c, d) && Reach(g', d, c);
        assert HasEdge(g, c, d) && Reach(g, d, c) ==> ReachOn(g, c, c);
        var p :| IsPath(g', p) && p[0] == d && p[|p| - 1] == c;
        PathThrough(g, g', a, b, p);
        if HasEdge(g, c, d) {
          if !Reach(g, d, c) {
            ReachStep(g, c, d, a);
            ReachTrans(g, b, c, a);
          }
        }
      }
    }
  }

  lemma AddedEdgeIsUnsafe(g: Lists, g': Lists, a: int, b: int)
    requires HasEdge(g', a, b) && Reach(g, b, a) && forall x, y :: HasEdge(g, x, y) ==> HasEdge(g', x, y)
    ensures !Acyclic(g')
  {
    var p :| IsPath(g, p) && p[0] == b && p[|p| - 1] == a;
    assert IsPath(g', p);
    assert ReachOn(g', a, a);
  }

  // ---------------------------------------------------------------------------
  // Strong paths
  // ---------------------------------------------------------------------------

  /** An entry of the lists, or the root of a search. */
  datatype Ref = Root | Entry(owner: nat, index: nat)

  predicate Exists(g: Lists, r: Ref) {
    r.Root? || (r.owner < |g| && r.index < |g[r.owner]|)
  }

  function ClassOf(g: Lists, root: int, r: Ref): int
    requires Exists(g, r)
  {
    match r
    case Root => root
    case Entry(c, i) => g[c][i].cls
  }

  /** The class a walk has come to. */
  function LastClass(g: Lists, root: int, es: seq<Ref>): int {
    if es == [] then root
    else if Exists(g, es[|es| - 1]) then ClassOf(g, root, es[|es| - 1])
    else -1
  }

  /** Entries that follow on each other, from class `root` on. */
  ghost predicate Walk(g: Lists, root: int, es: seq<Ref>) {
    es == [] ||
    var n := |es| - 1;
    && es[n].Entry? && Exists(g, es[n])
    && es[n].owner == LastClass(g, root, es[..n])
    && Walk(g, root, es[..n])
  }

  function DepOf(g: Lists, r: Ref): set<Kind> {
    if r.Entry? && Exists(g, r) then g[r.owner][r.index].dep else {}
  }

  /** The `j`-th kind and the one before are not *R and S*. */
  predicate Follows(xr: bool, ks: seq<Kind>, j: nat)
    requires j < |ks|
  {
    ks[j].exclusive || if j == 0 then !xr else ks[j - 1].nonRecursive
  }

  /** One kind for each entry of a walk, with no *R followed by S*; when the lock before the walk
      was only taken by a recursive reader (`xr`), the walk may not start with S* either. */
  ghost predicate Strong(g: Lists, xr: bool, es: seq<Ref>, ks: seq<Kind>) {
    && |ks| == |es|
    && (forall j :: 0 <= j < |es| ==> ks[j] in DepOf(g, es[j]))
    && (forall j :: 0 <= j < |es| ==> Follows(xr, ks, j))
  }

  datatype Option<T> = None | Some(value: T)

  /** `dep` with S* masked out after a dependency that can only be *R. */
  function Mask(dep: set<Kind>, xr: bool): set<Kind> {
    if xr then set k | k in dep && k.exclusive else dep
  }

  /** Is only *R left? */
  predicate OnlyR(dep: set<Kind>) {
    forall k :: k in dep ==> !k.nonRecursive
  }

  /** What the search computes along a walk: the only_xr of its last entry, if the walk survives. */
  ghost function XrAfter(g: Lists, xr: bool, es: seq<Ref>): Option<bool>
  {
    if es == [] then Some(xr)
    else
      var n := |es| - 1;
      match XrAfter(g, xr, es[..n])
      case None => None
      case Some(before) =>
        var dep := Mask(DepOf(g, es[n]), before);
        if dep == {} then None else Some(OnlyR(dep))
  }

  /** How a choice of kinds ends: in *N? */
  predicate Ending(xr: bool, ks: seq<Kind>) {
    if |ks| == 0 then !xr else ks[|ks| - 1].nonRecursive
  }

  ghost predicate CanEnd(g: Lists, xr: bool, es: seq<Ref>, nonRecursive: bool) {
    exists ks: seq<Kind> :: Strong(g, xr, es, ks) && Ending(xr, ks) == nonRecursive
  }

  /** The greedy computation is exact: a walk survives exactly when kinds can be chosen that make
      it strong, and only_xr is clear exactly when it can end in *N. */
  lemma {:induction false} XrAfterIsExact(g: Lists, xr: bool, es: seq<Ref>)
    ensures XrAfter(g, xr, es).Some? <==> CanEnd(g, xr, es, true) || CanEnd(g, xr, es, false)
    ensures XrAfter(g, xr, es) == Some(false) <==> CanEnd(g, xr, es, true)
  {
    if es == [] {
      assert Strong(g, xr, es, []);
      assert Ending(xr, []) == !xr;
    } else {
      XrAfterIsExact(g, xr, es[..|es| - 1]);
      forall ks: seq<Kind> | Strong(g, xr, es, ks)
        ensures XrAfter(g, xr, es).Some? && (Ending(xr, ks) ==> XrAfter(g, xr, es) == Some(false))
      {
        StrongSurvives(g, xr, es, ks);
      }
      if XrAfter(g, xr, es).Some? {
        var ks := SurvivorIsStrong(g, xr, es);
      }
    }
  }

  lemma StrongSurvives(g: Lists, xr: bool, es: seq<Ref>, ks: seq<Kind>)
    requires |es| > 0 && Strong(g, xr, es, ks)
    requires var es' := es[..|es| - 1];
             && (XrAfter(g, xr, es').Some? <==> CanEnd(g, xr, es', true) || CanEnd(g, xr, es', false))
             && (XrAfter(g, xr, es') == Some(false) <==> CanEnd(g, xr, es', true))
    ensures XrAfter(g, xr, es).Some? && (Ending(xr, ks) ==> XrAfter(g, xr, es) == Some(false))
  {
    var n := |es| - 1;
    assert Strong(g, xr, es[..n], ks[..n]) by {
      forall j | 0 <= j < n ensures Follows(xr, ks[..n], j) {
        assert Follows(xr, ks, j);
      }
    }
    assert CanEnd(g, xr, es[..n], Ending(xr, ks[..n]));
    assert Follows(xr, ks, n);
    assert ks[n] in Mask(DepOf(g, es[n]), XrAfter(g, xr, es[..n]).value);
  }

  lemma SurvivorIsStrong(g: Lists, xr: bool, es: seq<Ref>) returns (ks: seq<Kind>)
    requires |es| > 0
    requires XrAfter(g, xr, es).Some?
    requires var es' := es[..|es| - 1];
             && (XrAfter(g, xr, es').Some? <==> CanEnd(g, xr, es', true) || CanEnd(g, xr, es', false))
             && (XrAfter(g, xr, es') == Some(false) <==> CanEnd(g, xr, es', true))
    ensures Strong(g, xr, es, ks) && Ending(xr, ks) == !XrAfter(g, xr, es).value
  {
    var n := |es| - 1;
    var before := XrAfter(g, xr, es[..n]).value;
    var dep := Mask(DepOf(g, es[n]), before);
    var k :| k in dep && (k.nonRecursive <==> !OnlyR(dep));
    var ks': seq<Kind> :| Strong(g, xr, es[..n], ks') && (!before ==> Ending(xr, ks'));
    ks := ks' + [k];
    forall j | 0 <= j < |ks| ensures Follows(xr, ks, j) {
      if j < n {
        assert Follows(xr, ks', j);
      }
    }
  }

  // ---------------------------------------------------------------------------
  // Adding a dependency to both lists
  // ---------------------------------------------------------------------------

  /** The first entry for a class; the length of the list if there is none. */
  function Find(list: seq<Edge>, cls: int): (i: nat)
    ensures i <= |list| && (i < |list| ==> list[i].cls == cls)
    ensures forall j :: 0 <= j < i ==> list[j].cls != cls
  {
    if list == [] || list[0].cls == cls then 0 else 1 + Find(list[1..], cls)
  }

  /** The list with one more dependency on `cls`: merged into its entry, or a new entry at the end. */
  function AddDep(list: seq<Edge>, cls: int, dep: set<Kind>, distance: nat): seq<Edge> {
    var i := Find(list, cls);
    if i < |list| then list[i := Edge(cls, list[i].dep + dep, if distance == 1 then 1 else list[i].distance)]
    else list + [Edge(cls, dep, distance)]
  }

  /** What a list says about a class: kinds and distance. */
  ghost function Lookup(list: seq<Edge>, cls: int): Option<(set<Kind>, nat)> {
    var i := Find(list, cls);
    if i < |list| then Some((list[i].dep, list[i].distance)) else None
  }

  ghost predicate NoDuplicates(list: seq<Edge>) {
    forall i, j :: 0 <= i < j < |list| ==> list[i].cls != list[j].cls
  }

  /** The same kinds seen from the other end: exclusive and non-recursive change places. */
  function Swap(dep: set<Kind>): set<Kind> {
    set k | k in dep :: Kind(k.nonRecursive, k.exclusive)
  }

  ghost predicate Opposite(a: Option<(set<Kind>, nat)>, b: Option<(set<Kind>, nat)>) {
    match a
    case None => b.None?
    case Some(x) => b.Some? && b.value == (Swap(x.0), x.1)
  }

  /** locks_before is exactly the converse of locks_after. */
  ghost predicate Mirrored(after: Lists, before: Lists) {
    && |after| == |before|
    && (forall c :: 0 <= c < |after| ==> NoDuplicates(after[c]) && NoDuplicates(before[c]))
    && forall a, b :: 0 <= a < |after| && 0 <= b < |after| ==> Opposite(Lookup(after[a], b), Lookup(before[b], a))
  }

  lemma AddDepLookup(list: seq<Edge>, cls: int, dep: set<Kind>, distance: nat, c: int)
    requires NoDuplicates(list)
    ensures NoDuplicates(AddDep(list, cls, dep, distance))
    ensures c != cls ==> Lookup(AddDep(list, cls, dep, distance), c) == Lookup(list, c)
    ensures Lookup(AddDep(list, cls, dep, distance), cls) ==
              (match Lookup(list, cls)
               case None => Some((dep, distance))
               case Some(x) => Some((x.0 + dep, if distance == 1 then 1 else x.1)))
  {
    var list' := AddDep(list, cls, dep, distance);
    FindIs(list', cls, Find(list, cls));
    if c != cls {
      var i := Find(list, c);
      if i < |list| {
        FindIs(list', c, i);
      } else {
        FindNone(list', c);
      }
    }
  }

  lemma {:induction false} FindIs(list: seq<Edge>, cls: int, i: nat)
    requires i < |list| && list[i].cls == cls && forall j :: 0 <= j < i ==> list[j].cls != cls
    ensures Find(list, cls) == i
  {
    var k := Find(list, cls);
    assert !(k < i) && !(k > i);
  }

  lemma FindNone(list: seq<Edge>, cls: int)
    requires forall j :: 0 <= j < |list| ==> list[j].cls != cls
    ensures Find(list, cls) == |list|
  {
  }

  lemma AddDepEdges(g: Lists, a: nat, cls: int, dep: set<Kind>, distance: nat)
    requires a < |g|
    ensures var g' := g[a := AddDep(g[a], cls, dep, distance)];
            OneMore(g, g', a, cls) && HasEdge(g', a, cls) && forall x, y :: HasEdge(g, x, y) ==> HasEdge(g', x, y)
  {
    var list' := AddDep(g[a], cls, dep, distance);
    var g': Lists := g[a := list'];
    var i := Find(g[a], cls);
    assert g'[a][i].cls == cls;
    forall x, y | HasEdge(g', x, y) ensures HasEdge(g, x, y) || (x == a && y == cls) {
      var j :| 0 <= j < |g'[x]| && g'[x][j].cls == y;
      if x != a || j < |g[x]| {
        assert g[x][j].cls == y;
      }
    }
    forall x, y | HasEdge(g, x, y) ensures HasEdge(g', x, y) {
      var j :| 0 <= j < |g[x]| && g[x][j].cls == y;
      assert g'[x][j].cls == y;
    }
  }

  lemma SwapUnion(a: set<Kind>, b: set<Kind>)
    ensures Swap(a + b) == Swap(a) + Swap(b) && Swap(Swap(a)) == a
  {
    forall k | k in Swap(a + b) ensures k in Swap(a) + Swap(b) {
      var l :| l in a + b && k == Kind(l.nonRecursive, l.exclusive);
    }
    forall k | k in a ensures k in Swap(Swap(a)) {
      assert Kind(k.nonRecursive, k.exclusive) in Swap(a);
    }
  }

  /** Adding a dependency to both lists keeps them each other's converse. */
  lemma AddKeepsMirrored(after: Lists, before: Lists, a: nat, b: nat, dep: set<Kind>, distance: nat)
    requires Mirrored(after, before) && a < |after| && b < |after|
    ensures Mirrored(after[a := AddDep(after[a], b, dep, distance)],
                     before[b := AddDep(before[b], a, Swap(dep), distance)])
  {
    hide AddDep, Lookup, NoDuplicates, Swap;
    var after', before' := after[a := AddDep(after[a], b, dep, distance)],
                         before[b := AddDep(before[b], a, Swap(dep), distance)];
    forall x, y | 0 <= x < |after| && 0 <= y < |after| ensures Opposite(Lookup(after'[x], y), Lookup(before'[y], x)) {
      assert Opposite(Lookup(after[x], y), Lookup(before[y], x));
      if x == a {
        AddDepLookup(after[a], b, dep, distance, y);
      }
      if y == b {
        AddDepLookup(before[b], a, Swap(dep), distance, x);
      }
      if x == a && y == b && Lookup(after[a], b).Some? {
        SwapUnion(Lookup(after[a], b).value.0, dep);
      }
    }
    AddDepLookup(after[a], b, dep, distance, b);
    AddDepLookup(before[b], a, Swap(dep), distance, a);
  }
}
