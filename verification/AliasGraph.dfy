/** The pure side of TFA's alias graph: value nodes joined by "points to" edges, kept as two
    mutually inverse maps whose components are paths. What it means to fold one path onto another,
    and why folding by alignment is the least way of identifying two nodes.

    Everything here has a mirror image: swap the two maps and negate the levels. Lemmas are proved
    for edges ahead and used for edges behind through that symmetry.
 */
module AliasGraph {

  type Node = nat

  type Edges = map<Node, Node>

  /** FromNodeMap is the inverse of ToNodeMap. */
  ghost predicate Inverse(to: Edges, from: Edges) {
    && (forall x :: x in to ==> to[x] in from && from[to[x]] == x)
    && (forall y :: y in from ==> from[y] in to && to[from[y]] == y)
  }

  /** Following an edge climbs one level: there are no cycles, so every component is a path. */
  ghost predicate Graded(to: Edges, level: Node -> int) {
    forall x :: x in to ==> level(to[x]) == level(x) + 1
  }

  // ---------------------------------------------------------------------------
  // Components
  // ---------------------------------------------------------------------------

  /** The node `k` edges ahead of `n`, or `-k` edges behind it; -1 if the path ends before. */
  ghost function Walk(to: Edges, from: Edges, n: Node, k: int): (r: int)
    ensures r >= -1
    decreases if k < 0 then -k else k
  {
    if k == 0 then n
    else if k > 0 then
      var m := Walk(to, from, n, k - 1);
      if m in to then to[m] else -1
    else
      var m := Walk(to, from, n, k + 1);
      if m in from then from[m] else -1
  }

  /** In the same component: one is some edges ahead of the other. */
  ghost predicate Connected(to: Edges, from: Edges, a: Node, b: Node) {
    exists k: int :: Walk(to, from, a, k) == b
  }

  lemma {:induction false} WalkLevel(to: Edges, from: Edges, level: Node -> int, n: Node, k: int)
    requires Inverse(to, from) && Graded(to, level) && Walk(to, from, n, k) != -1
    ensures level(Walk(to, from, n, k)) == level(n) + k
    decreases if k < 0 then -k else k
  {
    if k > 0 {
      WalkLevel(to, from, level, n, k - 1);
    } else if k < 0 {
      WalkLevel(to, from, level, n, k + 1);
    }
  }

  /** No path closes on itself: a graded component is a path, not a ring. */
  lemma NoCycle(to: Edges, from: Edges, level: Node -> int, n: Node, k: int)
    requires Inverse(to, from) && Graded(to, level) && Walk(to, from, n, k) == n
    ensures k == 0
  {
    WalkLevel(to, from, level, n, k);
  }

  lemma ConnectedToSelf(to: Edges, from: Edges, n: Node)
    ensures Connected(to, from, n, n)
  {
    assert Walk(to, from, n, 0) == n;
  }

  /** Components are closed under edges, both ways. */
  lemma ConnectedAlong(to: Edges, from: Edges, n: Node, x: Node)
    requires Inverse(to, from) && x in to
    ensures Connected(to, from, n, x) <==> Connected(to, from, n, to[x])
  {
    if Connected(to, from, n, x) {
      var k :| Walk(to, from, n, k) == x;
      assert Walk(to, from, n, k + 1) == to[x];
    }
    if Connected(to, from, n, to[x]) {
      var k :| Walk(to, from, n, k) == to[x];
      assert Walk(to, from, n, k - 1) == x;
    }
  }

  /** A set closed under edges keeps what is connected to its members. */
  lemma {:induction false} WalkStays(to: Edges, from: Edges, s: set<Node>, n: Node, k: int)
    requires Inverse(to, from) && Closed(to, s) && n in s && Walk(to, from, n, k) != -1
    ensures Walk(to, from, n, k) in s
    decreases if k < 0 then -k else k
  {
    if k > 0 {
      WalkStays(to, from, s, n, k - 1);
    } else if k < 0 {
      WalkStays(to, from, s, n, k + 1);
      assert to[from[Walk(to, from, n, k + 1)]] == Walk(to, from, n, k + 1);
    }
  }

  ghost predicate Closed(to: Edges, s: set<Node>) {
    forall x :: x in to ==> (x in s <==> to[x] in s)
  }

  ghost function Component(to: Edges, from: Edges, n: Node): set<Node> {
    set x | x in to.Keys + from.Keys + {n} && Connected(to, from, n, x)
  }

  lemma ComponentIsConnected(to: Edges, from: Edges, n: Node, x: Node)
    requires Inverse(to, from)
    ensures x in Component(to, from, n) <==> Connected(to, from, n, x)
  {
    assert Walk(to, from, n, 0) == n;
    if Connected(to, from, n, x) {
      var k :| Walk(to, from, n, k) == x;
      assert k > 0 && Walk(to, from, n, k - 1) in to ==> to[Walk(to, from, n, k - 1)] in from;
    }
  }

  lemma OnOneLevel(to: Edges, from: Edges, level: Node -> int, n: Node, x: Node, y: Node)
    requires Inverse(to, from) && Graded(to, level)
    requires Connected(to, from, n, x) && Connected(to, from, n, y) && level(x) == level(y)
    ensures x == y
  {
    hide Inverse, Graded;
    var k :| Walk(to, from, n, k) == x;
    var j :| Walk(to, from, n, j) == y;
    WalkLevel(to, from, level, n, k);
    WalkLevel(to, from, level, n, j);
  }

  /** A component is closed and has one node a level. */
  lemma ComponentIsPath(to: Edges, from: Edges, level: Node -> int, n: Node)
    requires Inverse(to, from) && Graded(to, level)
    ensures n in Component(to, from, n) && Closed(to, Component(to, from, n))
    ensures OneALevel(Component(to, from, n), level)
  {
    hide Inverse, Graded, Connected, Component;
    var s := Component(to, from, n);
    ConnectedToSelf(to, from, n);
    ComponentIsConnected(to, from, n, n);
    forall x | x in to ensures x in s <==> to[x] in s {
      ConnectedAlong(to, from, n, x);
      ComponentIsConnected(to, from, n, x);
      ComponentIsConnected(to, from, n, to[x]);
    }
    forall x, y | x in s && y in s && level(x) == level(y) ensures x == y {
      ComponentIsConnected(to, from, n, x);
      ComponentIsConnected(to, from, n, y);
      OnOneLevel(to, from, level, n, x, y);
    }
  }

  // ---------------------------------------------------------------------------
  // Foldings
  // ---------------------------------------------------------------------------

  /** Where a folding sends a node. */
  ghost function Image(f: map<Node, Node>, x: Node): Node { if x in f then f[x] else x }

  /** The edges after folding all come from edges before it. */
  ghost predicate EdgesFromEdges(to: Edges, to': Edges, f: map<Node, Node>) {
    forall y :: y in to' ==> exists x :: x in to && Image(f, x) == y && Image(f, to[x]) == to'[y]
  }

  /** Every edge before folding is still there after it. */
  ghost predicate EdgesSurvive(to: Edges, to': Edges, f: map<Node, Node>) {
    forall x :: x in to ==> Image(f, x) in to' && to'[Image(f, x)] == Image(f, to[x])
  }

  /** An equivalence on nodes that following edges, forwards or backwards, cannot leave. */
  ghost predicate Congruence(to: Edges, r: (Node, Node) -> bool) {
    Equivalence(r) && forall x, y :: x in to && y in to ==> (r(x, y) <==> r(to[x], to[y]))
  }

  ghost predicate Equivalence(r: (Node, Node) -> bool) {
    && (forall x :: r(x, x))
    && (forall x, y :: r(x, y) ==> r(y, x))
    && (forall x, y, z :: r(x, y) && r(y, z) ==> r(x, z))
  }

  lemma Related(r: (Node, Node) -> bool, a: Node, b: Node, c: Node, d: Node)
    requires Equivalence(r) && r(a, b) && r(c, d)
    ensures r(a, c) <==> r(b, d)
  {
    if r(a, c) {
      assert r(b, c);
    }
    if r(b, d) {
      assert r(a, d);
    }
  }

  /** Folding identifies no more than `r` does. */
  ghost predicate Within(f: map<Node, Node>, r: (Node, Node) -> bool) {
    forall x :: x in f ==> r(x, f[x])
  }

  /** Folding identifies nothing that identifying `n1` with `n2` does not force. */
  ghost predicate Forced(to: Edges, f: map<Node, Node>, n1: Node, n2: Node) {
    forall r: (Node, Node) -> bool :: Congruence(to, r) && r(n1, n2) ==> Within(f, r)
  }

  lemma NothingFolds(to: Edges, s: set<Node>, level: Node -> int, n1: Node, n2: Node)
    ensures Moves(map[], s, level) && Forced(to, map[], n1, n2)
    ensures EdgesFromEdges(to, to, map[]) && EdgesSurvive(to, to, map[])
  {
    forall y | y in to ensures exists x :: x in to && Image(map[], x) == y && Image(map[], to[x]) == to[y] {
      assert Image(map[], y) == y;
    }
  }

  /** Nodes with the same image form a congruence. */
  lemma KernelIsCongruence(to: Edges, to': Edges, from': Edges, f: map<Node, Node>)
    requires EdgesSurvive(to, to', f) && Inverse(to', from')
    ensures Congruence(to, (x: Node, y: Node) => Image(f, x) == Image(f, y))
  {
  }

  /** `f` is the least equivalence that identifies `n1` with `n2` and is closed under following
      edges: two nodes have the same image exactly when every congruence relating `n1` and `n2`
      relates them. */
  ghost predicate Least(to: Edges, f: map<Node, Node>, n1: Node, n2: Node) {
    forall a, b :: Image(f, a) == Image(f, b) <==>
      forall r: (Node, Node) -> bool :: Congruence(to, r) && r(n1, n2) ==> r(a, b)
  }

  lemma FoldingIsLeast(to: Edges, to': Edges, from': Edges, f: map<Node, Node>, n1: Node, n2: Node)
    requires EdgesSurvive(to, to', f) && Inverse(to', from') && Image(f, n1) == Image(f, n2)
    requires Forced(to, f, n1, n2)
    ensures Least(to, f, n1, n2)
  {
    KernelIsCongruence(to, to', from', f);
    forall a, b
      ensures Image(f, a) == Image(f, b) <==>
                forall r: (Node, Node) -> bool :: Congruence(to, r) && r(n1, n2) ==> r(a, b)
    {
      ForcedOrApart(to, f, n1, n2, a, b);
    }
  }

  lemma ForcedOrApart(to: Edges, f: map<Node, Node>, n1: Node, n2: Node, a: Node, b: Node)
    requires Congruence(to, (x: Node, y: Node) => Image(f, x) == Image(f, y))
    requires Image(f, n1) == Image(f, n2) && Forced(to, f, n1, n2)
    ensures Image(f, a) == Image(f, b) <==>
              forall r: (Node, Node) -> bool :: Congruence(to, r) && r(n1, n2) ==> r(a, b)
  {
    var kernel := (x: Node, y: Node) => Image(f, x) == Image(f, y);
    assert kernel(n1, n2);
    if forall r: (Node, Node) -> bool :: Congruence(to, r) && r(n1, n2) ==> r(a, b) {
      assert kernel(a, b);
    }
    forall r: (Node, Node) -> bool | Congruence(to, r) && r(n1, n2) && Image(f, a) == Image(f, b)
      ensures r(a, b)
    {
      assert Within(f, r);
      assert r(a, Image(f, a)) && r(b, Image(f, b));
    }
  }

  /** Connected nodes stay connected when folding loses no edge. */
  lemma {:induction false} WalkSurvives(to: Edges, from: Edges, to': Edges, from': Edges, f: map<Node, Node>,
                                        n: Node, k: int)
    requires Inverse(to, from) && Inverse(to', from') && EdgesSurvive(to, to', f)
    requires Walk(to, from, n, k) != -1
    ensures Walk(to', from', Image(f, n), k) == Image(f, Walk(to, from, n, k))
    decreases if k < 0 then -k else k
  {
    if k > 0 {
      WalkSurvives(to, from, to', from', f, n, k - 1);
    } else if k < 0 {
      WalkSurvives(to, from, to', from', f, n, k + 1);
      var m := from[Walk(to, from, n, k + 1)];
      assert to[m] == Walk(to, from, n, k + 1);
    }
  }

  // ---------------------------------------------------------------------------
  // The mirror image
  // ---------------------------------------------------------------------------

  ghost function Neg(level: Node -> int): Node -> int {
    (x: Node) => -level(x)
  }

  lemma GradedMirror(to: Edges, from: Edges, level: Node -> int)
    requires Inverse(to, from) && Graded(to, level)
    ensures Graded(from, Neg(level))
  {
    forall y | y in from ensures Neg(level)(from[y]) == Neg(level)(y) + 1 {
      assert to[from[y]] == y;
    }
  }

  lemma CongruenceMirror(to: Edges, from: Edges, r: (Node, Node) -> bool)
    requires Inverse(to, from) && Congruence(to, r)
    ensures Congruence(from, r)
  {
    forall x, y | x in from && y in from ensures r(x, y) <==> r(from[x], from[y]) {
      assert to[from[x]] == x && to[from[y]] == y;
    }
  }

  lemma ForcedMirror(to: Edges, from: Edges, f: map<Node, Node>, n1: Node, n2: Node)
    requires Inverse(to, from) && Forced(to, f, n1, n2)
    ensures Forced(from, f, n1, n2)
  {
    forall r: (Node, Node) -> bool | Congruence(from, r) && r(n1, n2) ensures Within(f, r) {
      CongruenceMirror(from, to, r);
    }
  }

  lemma EdgesFromEdgesMirror(to: Edges, from: Edges, to': Edges, from': Edges, f: map<Node, Node>)
    requires Inverse(to, from) && Inverse(to', from') && EdgesFromEdges(to, to', f)
    ensures EdgesFromEdges(from, from', f)
  {
    forall y | y in from' ensures exists x :: x in from && Image(f, x) == y && Image(f, from[x]) == from'[y] {
      var x :| x in to && Image(f, x) == from'[y] && Image(f, to[x]) == to'[from'[y]];
      assert to[x] in from && Image(f, to[x]) == y && Image(f, from[to[x]]) == from'[y];
    }
  }

  lemma EdgesSurviveMirror(to: Edges, from: Edges, to': Edges, from': Edges, f: map<Node, Node>)
    requires Inverse(to, from) && Inverse(to', from') && EdgesSurvive(to, to', f)
    ensures EdgesSurvive(from, from', f)
  {
    forall y | y in from ensures Image(f, y) in from' && from'[Image(f, y)] == Image(f, from[y]) {
      assert to[from[y]] == y;
    }
  }

  // ---------------------------------------------------------------------------
  // Folding one half of a path
  // ---------------------------------------------------------------------------

  /** Nodes of `s` strictly ahead of `n`. */
  ghost function Ahead(s: set<Node>, level: Node -> int, n: Node): set<Node> {
    set x | x in s && level(x) > level(n)
  }

  ghost predicate OneALevel(s: set<Node>, level: Node -> int) {
    forall x, y :: x in s && y in s && level(x) == level(y) ==> x == y
  }

  /** `s` is a path that holds `n1` but not `n2`, and the two are level. */
  ghost predicate Sides(s: set<Node>, level: Node -> int, n1: Node, n2: Node) {
    n1 in s && n2 !in s && level(n1) == level(n2) && OneALevel(s, level)
  }

  /** The half of the path ahead of `n1` is cut off from the rest but for `n1`'s own edge. */
  ghost predicate HalfClosed(to: Edges, s: set<Node>, level: Node -> int, n1: Node) {
    forall x :: x in to && x != n1 ==> (x in Ahead(s, level, n1) <==> to[x] in Ahead(s, level, n1))
  }

  /** Ready to fold the half ahead of `n1` onto the half ahead of `n2`. */
  ghost predicate Ready(to: Edges, from: Edges, s: set<Node>, level: Node -> int, n1: Node, n2: Node) {
    && Inverse(to, from) && Graded(to, level) && Sides(s, level, n1, n2)
    && HalfClosed(to, s, level, n1)
    && (n1 in to ==> to[n1] in s) && (n2 in to ==> to[n2] !in s)
  }

  /** What folding the path `s` onto another may do to nodes. */
  ghost predicate Moves(f: map<Node, Node>, s: set<Node>, level: Node -> int) {
    forall x :: x in f ==> x in s && f[x] !in s && level(f[x]) == level(x)
  }

  /** `x` as the source of an edge while only the half ahead of `n1` has been folded. */
  ghost function Source(f: map<Node, Node>, n1: Node, n2: Node, x: Node): Node {
    if x == n1 then n2 else Image(f, x)
  }

  ghost predicate HalfFromEdges(to: Edges, to': Edges, f: map<Node, Node>, n1: Node, n2: Node) {
    forall y :: y in to' ==> exists x :: x in to && Source(f, n1, n2, x) == y && Image(f, to[x]) == to'[y]
  }

  /** One half done: from `to` to (`to'`, `from'`), moving nodes ahead of `n1` by `f`. */
  ghost predicate HalfFolded(to: Edges, to': Edges, from': Edges, f: map<Node, Node>,
                             s: set<Node>, level: Node -> int, n1: Node, n2: Node)
  {
    && Inverse(to', from') && Graded(to', level) && Moves(f, Ahead(s, level, n1), level)
    && HalfFromEdges(to, to', f, n1, n2)
  }

  ghost predicate HalfSurvives(to: Edges, to': Edges, f: map<Node, Node>, n1: Node, n2: Node) {
    forall x :: x in to ==> Source(f, n1, n2, x) in to' && to'[Source(f, n1, n2, x)] == Image(f, to[x])
  }

  /** Ready to fold the component `s` of `n1` onto that of `n2`. */
  ghost predicate Foldable(to: Edges, from: Edges, s: set<Node>, level: Node -> int, n1: Node, n2: Node) {
    Inverse(to, from) && Graded(to, level) && Sides(s, level, n1, n2) && Closed(to, s)
  }

  /** What remains when both edges are cut can be folded from their ends. */
  lemma CutIsFoldable(to: Edges, from: Edges, s: set<Node>, level: Node -> int, n1: Node, n2: Node)
    requires Ready(to, from, s, level, n1, n2) && n1 in to && n2 in to
    ensures to[n1] != to[n2] && Ahead(s, level, n1) < s
    ensures Foldable(to - {n1, n2}, from - {to[n1], to[n2]}, Ahead(s, level, n1), level, to[n1], to[n2])
  {
  }

  /** After folding what is ahead, nothing has come to `n2` or to the end of its old edge. */
  lemma NothingAtEdge(to: Edges, from: Edges, toB: Edges, f: map<Node, Node>,
                      s: set<Node>, level: Node -> int, n1: Node, n2: Node, y: Node)
    requires Ready(to, from, s, level, n1, n2) && n1 in to && n2 in to
    requires Moves(f, Ahead(s, level, n1), level) && EdgesFromEdges(to - {n1, n2}, toB, f) && y in toB
    ensures y != n2 && toB[y] != to[n2]
  {
    var x :| x in to - {n1, n2} && Image(f, x) == y && Image(f, (to - {n1, n2})[x]) == toB[y];
    assert from[to[x]] == x && from[to[n1]] == n1 && from[to[n2]] == n2;
  }

  /** So the edge can be restored. */
  lemma RestoreKeepsInverse(to: Edges, from: Edges, toB: Edges, fromB: Edges, f: map<Node, Node>,
                            s: set<Node>, level: Node -> int, n1: Node, n2: Node)
    requires Ready(to, from, s, level, n1, n2) && n1 in to && n2 in to
    requires Inverse(toB, fromB) && Moves(f, Ahead(s, level, n1), level)
    requires EdgesFromEdges(to - {n1, n2}, toB, f)
    ensures Inverse(toB[n2 := to[n2]], fromB[to[n2] := n2])
  {
    assert n2 !in toB by {
      if n2 in toB {
        NothingAtEdge(to, from, toB, f, s, level, n1, n2, n2);
      }
    }
    assert to[n2] !in fromB by {
      if to[n2] in fromB {
        NothingAtEdge(to, from, toB, f, s, level, n1, n2, fromB[to[n2]]);
      }
    }
    AddEdge(toB, fromB, n2, to[n2]);
  }

  lemma AddEdge(to: Edges, from: Edges, a: Node, b: Node)
    requires Inverse(to, from) && a !in to && b !in from
    ensures Inverse(to[a := b], from[b := a])
  {
  }

  lemma RestoreFromEdges(to: Edges, from: Edges, toB: Edges, f: map<Node, Node>,
                         s: set<Node>, level: Node -> int, n1: Node, n2: Node)
    requires Ready(to, from, s, level, n1, n2) && n1 in to && n2 in to
    requires Moves(f, Ahead(s, level, n1), level)
    requires EdgesFromEdges(to - {n1, n2}, toB, f)
    ensures HalfFromEdges(to, toB[n2 := to[n2]], f, n1, n2)
  {
    var to' := toB[n2 := to[n2]];
    forall y | y in to' ensures exists x :: x in to && Source(f, n1, n2, x) == y && Image(f, to[x]) == to'[y] {
      if y == n2 {
        assert Source(f, n1, n2, n2) == n2 && Image(f, to[n2]) == to[n2];
      } else {
        var x :| x in to - {n1, n2} && Image(f, x) == y && Image(f, (to - {n1, n2})[x]) == toB[y];
        assert Source(f, n1, n2, x) == y;
      }
    }
  }

  lemma RestoreSurvives(to: Edges, from: Edges, toB: Edges, f: map<Node, Node>,
                        s: set<Node>, level: Node -> int, n1: Node, n2: Node)
    requires Ready(to, from, s, level, n1, n2) && n1 in to && n2 in to
    requires Moves(f, Ahead(s, level, n1), level)
    requires EdgesSurvive(to - {n1, n2}, toB, f) && Image(f, to[n1]) == to[n2]
    ensures HalfSurvives(to, toB[n2 := to[n2]], f, n1, n2)
  {
    var to' := toB[n2 := to[n2]];
    forall x | x in to ensures Source(f, n1, n2, x) in to' && to'[Source(f, n1, n2, x)] == Image(f, to[x]) {
      if x == n1 || x == n2 {
        assert Source(f, n1, n2, x) == n2;
      } else {
        assert x in to - {n1, n2} && (to - {n1, n2})[x] == to[x];
        assert Image(f, x) != n2;
      }
    }
  }

  lemma FoldedLevel(f: map<Node, Node>, s: set<Node>, level: Node -> int, n1: Node, n2: Node, x: Node)
    requires Sides(s, level, n1, n2) && Moves(f, Ahead(s, level, n1), level)
    ensures level(Source(f, n1, n2, x)) == level(Image(f, x)) == level(x)
  {
    hide OneALevel;
  }

  /** Edges keep their levels. */
  lemma RestoreKeepsLevels(to: Edges, to': Edges, f: map<Node, Node>, s: set<Node>, level: Node -> int, n1: Node,
                           n2: Node)
    requires Graded(to, level) && Sides(s, level, n1, n2)
    requires Moves(f, Ahead(s, level, n1), level) && HalfFromEdges(to, to', f, n1, n2)
    ensures Graded(to', level)
  {
    hide Sides, Moves, Source, Image;
    forall y | y in to' ensures level(to'[y]) == level(y) + 1 {
      var x :| x in to && Source(f, n1, n2, x) == y && Image(f, to[x]) == to'[y];
      FoldedLevel(f, s, level, n1, n2, x);
      FoldedLevel(f, s, level, n1, n2, to[x]);
    }
  }

  /** Folding what is ahead and then restoring `n2`'s edge folds the half. */
  lemma RestoreFolds(to: Edges, from: Edges, toB: Edges, fromB: Edges, f: map<Node, Node>,
                     s: set<Node>, level: Node -> int, n1: Node, n2: Node)
    requires Ready(to, from, s, level, n1, n2) && n1 in to && n2 in to
    requires Inverse(toB, fromB) && Moves(f, Ahead(s, level, n1), level)
    requires EdgesFromEdges(to - {n1, n2}, toB, f)
    ensures HalfFolded(to, toB[n2 := to[n2]], fromB[to[n2] := n2], f, s, level, n1, n2)
  {
    hide Inverse, EdgesFromEdges, Moves, HalfFromEdges, Graded, HalfClosed;
    RestoreKeepsInverse(to, from, toB, fromB, f, s, level, n1, n2);
    RestoreFromEdges(to, from, toB, f, s, level, n1, n2);
    RestoreKeepsLevels(to, toB[n2 := to[n2]], f, s, level, n1, n2);
  }

  lemma CutForced(to: Edges, f: map<Node, Node>, n1: Node, n2: Node)
    requires n1 in to && n2 in to && Forced(to - {n1, n2}, f, to[n1], to[n2])
    ensures Forced(to, f, n1, n2)
  {
    forall r: (Node, Node) -> bool | Congruence(to, r) && r(n1, n2) ensures Within(f, r) {
      assert Congruence(to - {n1, n2}, r);
    }
  }

  /** Only `n1` has an edge: `n2` takes it over. */
  lemma TakeOver(to: Edges, from: Edges, s: set<Node>, level: Node -> int, n1: Node, n2: Node)
    requires Ready(to, from, s, level, n1, n2) && n1 in to && n2 !in to
    ensures HalfFolded(to, (to - {n1})[n2 := to[n1]], from[to[n1] := n2], map[], s, level, n1, n2)
    ensures HalfSurvives(to, (to - {n1})[n2 := to[n1]], map[], n1, n2) && Forced(to, map[], n1, n2)
  {
    hide Inverse, Graded, HalfFromEdges, HalfSurvives;
    TakeOverKeepsInverse(to, from, n1, n2);
    TakeOverEdges(to, from, n1, n2);
    RestoreKeepsLevels(to, (to - {n1})[n2 := to[n1]], map[], s, level, n1, n2);
  }

  lemma TakeOverKeepsInverse(to: Edges, from: Edges, n1: Node, n2: Node)
    requires Inverse(to, from) && n1 in to && n2 !in to
    ensures Inverse((to - {n1})[n2 := to[n1]], from[to[n1] := n2])
  {
  }

  lemma TakeOverEdges(to: Edges, from: Edges, n1: Node, n2: Node)
    requires Inverse(to, from) && n1 in to && n2 !in to
    ensures HalfFromEdges(to, (to - {n1})[n2 := to[n1]], map[], n1, n2)
    ensures HalfSurvives(to, (to - {n1})[n2 := to[n1]], map[], n1, n2)
  {
    var to' := (to - {n1})[n2 := to[n1]];
    forall y | y in to'
      ensures exists x :: x in to && Source(map[], n1, n2, x) == y && Image(map[], to[x]) == to'[y]
    {
      var x := if y == n2 then n1 else y;
      assert Source(map[], n1, n2, x) == y;
    }
  }

  /** `n1` has no edge: nothing to do. */
  lemma NothingAhead(to: Edges, from: Edges, s: set<Node>, level: Node -> int, n1: Node, n2: Node)
    requires Ready(to, from, s, level, n1, n2) && n1 !in to
    ensures HalfFolded(to, to, from, map[], s, level, n1, n2) && HalfSurvives(to, to, map[], n1, n2)
    ensures Forced(to, map[], n1, n2)
  {
    forall y | y in to
      ensures exists x :: x in to && Source(map[], n1, n2, x) == y && Image(map[], to[x]) == to[y]
    {
      assert Source(map[], n1, n2, y) == y;
    }
  }

  lemma ReadyEdges(to: Edges, from: Edges, s: set<Node>, level: Node -> int, n1: Node, n2: Node)
    requires Ready(to, from, s, level, n1, n2)
    ensures Inverse(to, from)
    ensures n1 in to ==> to[n1] in from && from[to[n1]] == n1
    ensures n2 in to ==> to[n2] in from && from[to[n2]] == n2
  {
  }

  lemma HalfKeepsShape(to: Edges, to': Edges, from': Edges, f: map<Node, Node>,
                       s: set<Node>, level: Node -> int, n1: Node, n2: Node)
    requires HalfFolded(to, to', from', f, s, level, n1, n2)
    ensures Inverse(to', from') && Graded(to', level)
  {
  }

  // ---------------------------------------------------------------------------
  // The two halves together
  // ---------------------------------------------------------------------------

  lemma FoldableMirror(to: Edges, from: Edges, s: set<Node>, level: Node -> int, n1: Node, n2: Node)
    requires Foldable(from, to, s, Neg(level), n1, n2)
    ensures Foldable(to, from, s, level, n1, n2)
  {
    forall x | x in to ensures level(to[x]) == level(x) + 1 && (x in s <==> to[x] in s) {
      assert from[to[x]] == x && Neg(level)(from[to[x]]) == Neg(level)(to[x]) + 1;
    }
  }

  lemma InverseMirror(to: Edges, from: Edges)
    requires Inverse(to, from)
    ensures Inverse(from, to)
  {
  }

  lemma MovesMirror(f: map<Node, Node>, s: set<Node>, level: Node -> int)
    requires Moves(f, s, level)
    ensures Moves(f, s, Neg(level))
  {
  }

  lemma HalfKeepsShapeMirror(from: Edges, from': Edges, to': Edges, f: map<Node, Node>,
                             s: set<Node>, level: Node -> int, n1: Node, n2: Node)
    requires HalfFolded(from, from', to', f, s, Neg(level), n1, n2)
    ensures Inverse(to', from') && Graded(to', level)
  {
    forall x | x in to' ensures level(to'[x]) == level(x) + 1 {
      assert from'[to'[x]] == x && Neg(level)(x) == Neg(level)(to'[x]) + 1;
    }
  }

  /** The fold of what is behind, found along the edges, seen against them. */
  lemma RestoreFoldsMirror(to: Edges, from: Edges, toCut: Edges, fromCut: Edges, toB: Edges, fromB: Edges,
                           f: map<Node, Node>, s: set<Node>, level: Node -> int, n1: Node, n2: Node)
    requires Ready(from, to, s, Neg(level), n1, n2) && n1 in from && n2 in from
    requires fromCut == from - {n1, n2} && Inverse(toCut, fromCut) && Inverse(toB, fromB)
    requires Moves(f, Ahead(s, Neg(level), n1), level) && EdgesFromEdges(toCut, toB, f)
    requires Forced(toCut, f, from[n1], from[n2])
    ensures HalfFolded(from, fromB[n2 := from[n2]], toB[from[n2] := n2], f, s, Neg(level), n1, n2)
    ensures Forced(from, f, n1, n2)
    ensures EdgesSurvive(toCut, toB, f) && Image(f, from[n1]) == from[n2] ==>
              HalfSurvives(from, fromB[n2 := from[n2]], f, n1, n2)
  {
    hide Inverse, EdgesFromEdges, EdgesSurvive, Moves, Forced, Ready, HalfFolded, HalfSurvives, Ahead;
    InverseMirror(toB, fromB);
    MovesMirror(f, Ahead(s, Neg(level), n1), level);
    EdgesFromEdgesMirror(toCut, fromCut, toB, fromB, f);
    ForcedMirror(toCut, fromCut, f, from[n1], from[n2]);
    RestoreFolds(from, to, fromB, toB, f, s, Neg(level), n1, n2);
    CutForced(from, f, n1, n2);
    if EdgesSurvive(toCut, toB, f) && Image(f, from[n1]) == from[n2] {
      EdgesSurviveMirror(toCut, fromCut, toB, fromB, f);
      RestoreSurvives(from, to, fromB, f, s, Neg(level), n1, n2);
    }
  }

  lemma FoldableIsReady(to: Edges, from: Edges, s: set<Node>, level: Node -> int, n1: Node, n2: Node)
    requires Foldable(to, from, s, level, n1, n2)
    ensures Ready(to, from, s, level, n1, n2)
  {
  }

  /** Edges behind `n1` and `n2` have not moved. */
  lemma EdgeBehind(to: Edges, from: Edges, to1: Edges, from1: Edges, f: map<Node, Node>,
                   s: set<Node>, level: Node -> int, n1: Node, n2: Node, y: Node)
    requires Foldable(to, from, s, level, n1, n2) && HalfFolded(to, to1, from1, f, s, level, n1, n2) && y in to1
    ensures level(to1[y]) == level(y) + 1
    ensures level(y) < level(n1) ==> (y in s <==> to1[y] in s)
  {
    var x :| x in to && Source(f, n1, n2, x) == y && Image(f, to[x]) == to1[y];
  }

  lemma EdgeInto(to: Edges, from: Edges, y: Node)
    requires Inverse(to, from) && y in from
    ensures from[y] in to && to[from[y]] == y
  {
  }

  /** When the half ahead has been folded, the half behind is cut off. */
  lemma OtherHalfIsClosed(to: Edges, from: Edges, to1: Edges, from1: Edges, f: map<Node, Node>,
                          s: set<Node>, level: Node -> int, n1: Node, n2: Node, y: Node)
    requires Foldable(to, from, s, level, n1, n2) && HalfFolded(to, to1, from1, f, s, level, n1, n2) && y in from1
    ensures y != n1 ==> (y in Ahead(s, Neg(level), n1) <==> from1[y] in Ahead(s, Neg(level), n1))
    ensures y == n1 ==> from1[y] in s
    ensures y == n2 ==> from1[y] !in s
  {
    hide Inverse, Graded, Moves, HalfFromEdges, Closed;
    EdgeInto(to1, from1, y);
    EdgeBehind(to, from, to1, from1, f, s, level, n1, n2, from1[y]);
    if y in s && level(y) == level(n1) {
      assert y == n1;
    }
  }

  /** So it is ready. */
  lemma OtherHalfIsReady(to: Edges, from: Edges, to1: Edges, from1: Edges, f: map<Node, Node>,
                         s: set<Node>, level: Node -> int, n1: Node, n2: Node)
    requires Foldable(to, from, s, level, n1, n2) && HalfFolded(to, to1, from1, f, s, level, n1, n2)
    ensures Ready(from1, to1, s, Neg(level), n1, n2)
  {
    hide Inverse, Graded, Moves, HalfFromEdges, Closed, Ahead;
    InverseMirror(to1, from1);
    GradedMirror(to1, from1, level);
    assert Sides(s, Neg(level), n1, n2);
    forall y | y in from1 && y != n1 ensures y in Ahead(s, Neg(level), n1) <==> from1[y] in Ahead(s, Neg(level), n1) {
      OtherHalfIsClosed(to, from, to1, from1, f, s, level, n1, n2, y);
    }
    if n1 in from1 {
      OtherHalfIsClosed(to, from, to1, from1, f, s, level, n1, n2, n1);
    }
    if n2 in from1 {
      OtherHalfIsClosed(to, from, to1, from1, f, s, level, n1, n2, n2);
    }
  }

  /** Each edge of the half-folded graph is congruent to one of the whole graph. */
  lemma CongruentEdge(to: Edges, to1: Edges, f: map<Node, Node>, n1: Node, n2: Node, r: (Node, Node) -> bool, y: Node)
    returns (x: Node)
    requires HalfFromEdges(to, to1, f, n1, n2) && Equivalence(r) && r(n1, n2) && Within(f, r) && y in to1
    ensures x in to && r(x, y) && r(to[x], to1[y])
  {
    x :| x in to && Source(f, n1, n2, x) == y && Image(f, to[x]) == to1[y];
  }

  /** The congruences of the whole graph are still congruences of the half-folded one. */
  lemma CongruenceCarries(to: Edges, to1: Edges, f: map<Node, Node>, n1: Node, n2: Node, r: (Node, Node) -> bool)
    requires HalfFromEdges(to, to1, f, n1, n2) && Congruence(to, r) && r(n1, n2) && Within(f, r)
    ensures Congruence(to1, r)
  {
    forall y, z | y in to1 && z in to1 ensures r(y, z) <==> r(to1[y], to1[z]) {
      var x := CongruentEdge(to, to1, f, n1, n2, r, y);
      var w := CongruentEdge(to, to1, f, n1, n2, r, z);
      Related(r, x, y, w, z);
      Related(r, to[x], to1[y], to[w], to1[z]);
    }
  }

  /** The folding made of its two halves and `n1` itself. */
  ghost function Both(f1: map<Node, Node>, f2: map<Node, Node>, n1: Node, n2: Node): map<Node, Node> {
    (f1 + f2)[n1 := n2]
  }

  /** The two halves move different nodes, none of them `n1` or `n2`, and nothing twice. */
  lemma BothImage(f1: map<Node, Node>, f2: map<Node, Node>, s: set<Node>, level: Node -> int, n1: Node, n2: Node,
                  x: Node)
    requires Sides(s, level, n1, n2)
    requires Moves(f1, Ahead(s, level, n1), level) && Moves(f2, Ahead(s, Neg(level), n1), Neg(level))
    ensures Image(Both(f1, f2, n1, n2), x) == Image(f2, Source(f1, n1, n2, x))
    ensures Image(Both(f1, f2, n1, n2), x) == Source(f2, n1, n2, Image(f1, x))
  {
  }

  lemma BothMoves(f1: map<Node, Node>, f2: map<Node, Node>, s: set<Node>, level: Node -> int, n1: Node, n2: Node)
    requires Sides(s, level, n1, n2)
    requires Moves(f1, Ahead(s, level, n1), level) && Moves(f2, Ahead(s, Neg(level), n1), Neg(level))
    ensures Moves(Both(f1, f2, n1, n2), s, level)
  {
  }

  lemma BothFromEdges(to: Edges, from: Edges, to1: Edges, from1: Edges, to2: Edges, from2: Edges,
                      f1: map<Node, Node>, f2: map<Node, Node>, s: set<Node>, level: Node -> int, n1: Node, n2: Node)
    requires Inverse(to, from) && Sides(s, level, n1, n2)
    requires HalfFolded(to, to1, from1, f1, s, level, n1, n2)
    requires HalfFolded(from1, from2, to2, f2, s, Neg(level), n1, n2)
    ensures EdgesFromEdges(to, to2, Both(f1, f2, n1, n2))
  {
    var f := Both(f1, f2, n1, n2);
    forall y | y in to2 ensures exists x :: x in to && Image(f, x) == y && Image(f, to[x]) == to2[y] {
      var z := to2[y];
      assert from2[z] == y;
      var v :| v in from1 && Source(f2, n1, n2, v) == z && Image(f2, from1[v]) == from2[z];
      var u := from1[v];
      assert to1[u] == v;
      var x :| x in to && Source(f1, n1, n2, x) == u && Image(f1, to[x]) == to1[u];
      BothImage(f1, f2, s, level, n1, n2, x);
      BothImage(f1, f2, s, level, n1, n2, to[x]);
    }
  }

  lemma EdgeThroughBoth(to1: Edges, from1: Edges, to2: Edges, from2: Edges, f2: map<Node, Node>, n1: Node,
                        n2: Node, u: Node)
    requires Inverse(to1, from1) && Inverse(from2, to2) && HalfSurvives(from1, from2, f2, n1, n2) && u in to1
    ensures Image(f2, u) in to2 && to2[Image(f2, u)] == Source(f2, n1, n2, to1[u])
  {
    assert from1[to1[u]] == u;
    assert from2[Source(f2, n1, n2, to1[u])] == Image(f2, u);
  }

  lemma BothSurvive(to: Edges, to1: Edges, from1: Edges, to2: Edges, from2: Edges,
                    f1: map<Node, Node>, f2: map<Node, Node>, s: set<Node>, level: Node -> int, n1: Node, n2: Node)
    requires Sides(s, level, n1, n2) && Inverse(to1, from1) && Inverse(from2, to2)
    requires Moves(f1, Ahead(s, level, n1), level) && Moves(f2, Ahead(s, Neg(level), n1), Neg(level))
    requires HalfSurvives(to, to1, f1, n1, n2) && HalfSurvives(from1, from2, f2, n1, n2)
    ensures EdgesSurvive(to, to2, Both(f1, f2, n1, n2))
  {
    var f := Both(f1, f2, n1, n2);
    forall x | x in to ensures Image(f, x) in to2 && to2[Image(f, x)] == Image(f, to[x]) {
      BothImage(f1, f2, s, level, n1, n2, x);
      BothImage(f1, f2, s, level, n1, n2, to[x]);
      EdgeThroughBoth(to1, from1, to2, from2, f2, n1, n2, Source(f1, n1, n2, x));
    }
  }

  lemma BothForced(to: Edges, to1: Edges, from1: Edges, f1: map<Node, Node>, f2: map<Node, Node>, n1: Node, n2: Node)
    requires Forced(to, f1, n1, n2) && Forced(from1, f2, n1, n2)
    requires Inverse(to1, from1) && HalfFromEdges(to, to1, f1, n1, n2)
    ensures Forced(to, Both(f1, f2, n1, n2), n1, n2)
  {
    forall r: (Node, Node) -> bool | Congruence(to, r) && r(n1, n2) ensures Within(Both(f1, f2, n1, n2), r) {
      CongruenceCarries(to, to1, f1, n1, n2, r);
      CongruenceMirror(to1, from1, r);
    }
  }

  lemma GradedKept(to: Edges, to': Edges, f: map<Node, Node>, s: set<Node>, level: Node -> int)
    requires Graded(to, level) && Moves(f, s, level) && EdgesFromEdges(to, to', f)
    ensures Graded(to', level)
  {
    forall y | y in to' ensures level(to'[y]) == level(y) + 1 {
      var x :| x in to && Image(f, x) == y && Image(f, to[x]) == to'[y];
    }
  }
}
