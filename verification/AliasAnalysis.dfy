/** TFA's alias engine as it runs: the mutable unification graph of src/lib/AliasAnalysis, the
    merging of two nodes with everything they point to and are pointed to by, and the
    instruction handlers. Nodes are numbers instead of heap addresses. */
module AliasAnalysis {

  import opened AliasGraph

  /** An IR value: an id, and the two dynamic casts the handlers ask about. */
  datatype Value = Value(id: nat, isConstantData: bool, isFunction: bool)

  /** A TBAA access tag, named by its metadata node. */
  type Tag = nat

  datatype Option<T> = None | Some(value: T)

  /** What the analysis knows: the node of each value, and the edges. */
  datatype Graph = Graph(node: map<Value, Node>, to: Edges, from: Edges)

  ghost predicate Aliased(g: Graph, v: Value, w: Value) {
    v in g.node && w in g.node && g.node[v] == g.node[w]
  }

  ghost predicate PointsTo(g: Graph, p: Value, v: Value) {
    p in g.node && v in g.node && g.node[p] in g.to && g.to[g.node[p]] == g.node[v]
  }

  ghost predicate Linked(g: Graph, v: Value, w: Value) {
    v in g.node && w in g.node && Connected(g.to, g.from, g.node[v], g.node[w])
  }

  ghost predicate KeepsAliases(g: Graph, g': Graph) {
    g.node.Keys <= g'.node.Keys && forall v, w :: Aliased(g, v, w) ==> Aliased(g', v, w)
  }

  ghost predicate Keeps(g: Graph, g': Graph) {
    && KeepsAliases(g, g')
    && (forall v, w :: PointsTo(g, v, w) ==> PointsTo(g', v, w))
    && (forall v, w :: Linked(g, v, w) ==> Linked(g', v, w))
  }

  ghost function Moved(m: map<Value, Node>, f: map<Node, Node>): map<Value, Node> {
    map v | v in m :: Image(f, m[v])
  }

  ghost function Reassigned(m: map<Value, Node>, vs: set<Value>, n: Node): map<Value, Node> {
    map v | v in m :: if v in vs then n else m[v]
  }

  lemma MovedNowhere(m: map<Value, Node>)
    ensures Moved(m, map[]) == m
  {
  }

  /** Folding keeps every fact, as long as it loses no edge. */
  lemma FoldKeeps(g: Graph, g': Graph, f: map<Node, Node>)
    requires g'.node == Moved(g.node, f)
    ensures KeepsAliases(g, g')
    ensures Inverse(g.to, g.from) && Inverse(g'.to, g'.from) && EdgesSurvive(g.to, g'.to, f) ==> Keeps(g, g')
  {
    if Inverse(g.to, g.from) && Inverse(g'.to, g'.from) && EdgesSurvive(g.to, g'.to, f) {
      forall v, w | Linked(g, v, w) ensures Linked(g', v, w) {
        var k :| Walk(g.to, g.from, g.node[v], k) == g.node[w];
        WalkSurvives(g.to, g.from, g'.to, g'.from, f, g.node[v], k);
      }
    }
  }

  /** Naming another value changes nothing that is known. */
  lemma NamingKeeps(g: Graph, v: Value, n: Node)
    requires v !in g.node
    ensures Keeps(g, g.(node := g.node[v := n]))
  {
  }

  lemma KeepsTwice(g: Graph, g': Graph, g'': Graph)
    ensures KeepsAliases(g, g') && KeepsAliases(g', g'') ==> KeepsAliases(g, g'')
    ensures Keeps(g, g') && Keeps(g', g'') ==> Keeps(g, g'')
  {
  }

  lemma KeepsBoth(g: Graph, g': Graph)
    requires Keeps(g, g')
    ensures KeepsAliases(g, g')
  {
  }

  lemma KeepsSame(g: Graph)
    ensures Keeps(g, g) && KeepsAliases(g, g)
  {
  }

  lemma LinkedToSelf(g: Graph, v: Value, w: Value)
    requires Aliased(g, v, w)
    ensures Linked(g, v, w)
  {
    assert Walk(g.to, g.from, g.node[v], 0) == g.node[w];
  }

  lemma PointerIsLinked(g: Graph, p: Value, v: Value)
    requires Inverse(g.to, g.from) && PointsTo(g, p, v)
    ensures Linked(g, v, p)
  {
    assert g.from[g.node[v]] == g.node[p];
    assert Walk(g.to, g.from, g.node[v], 0) == g.node[v];
    assert Walk(g.to, g.from, g.node[v], -1) == g.node[p];
  }

  /** The alias classes partition the values, as `node` says, over the nodes below `next`. */
  ghost predicate Partition(node: map<Value, Node>, aliasclass: map<Node, set<Value>>, next: Node) {
    && (forall n: Node :: n in aliasclass <==> n < next)
    && (forall v :: v in node ==> node[v] < next && v in aliasclass[node[v]])
    && (forall n, v :: n in aliasclass && v in aliasclass[n] ==> v in node && node[v] == n)
  }

  lemma MovingKeepsPartition(node: map<Value, Node>, before: map<Node, set<Value>>, after: map<Node, set<Value>>,
                             next: Node, n1: Node, n2: Node)
    requires Partition(node, before, next) && n1 < next && n2 < next && n1 != n2
    requires after == before[n2 := before[n2] + before[n1]][n1 := {}]
    ensures Partition(Moved(node, map[n1 := n2]), after, next)
  {
  }

  lemma ClassOf(node: map<Value, Node>, aliasclass: map<Node, set<Value>>, next: Node, n: Node)
    requires Partition(node, aliasclass, next) && n < next
    ensures n in aliasclass && forall v :: v in node ==> (v in aliasclass[n] <==> node[v] == n)
    ensures aliasclass[n] <= node.Keys
  {
  }

  lemma NodeOf(node: map<Value, Node>, aliasclass: map<Node, set<Value>>, next: Node, v: Value)
    requires Partition(node, aliasclass, next) && v in node
    ensures node[v] < next
  {
  }

  lemma ReassignedIsMoved(node: map<Value, Node>, aliasclass: map<Node, set<Value>>, next: Node, n1: Node, n2: Node)
    requires Partition(node, aliasclass, next) && n1 < next
    ensures n1 in aliasclass && Reassigned(node, aliasclass[n1], n2) == Moved(node, map[n1 := n2])
  {
    forall v | v in node ensures (v in aliasclass[n1]) == (node[v] == n1) {
      ClassOf(node, aliasclass, next, n1);
    }
  }

  lemma NamingKeepsPartition(node: map<Value, Node>, aliasclass: map<Node, set<Value>>, next: Node, v: Value, n: Node)
    requires Partition(node, aliasclass, next) && v !in node && n <= next
    ensures Partition(node[v := n], aliasclass[n := (if n in aliasclass then aliasclass[n] else {}) + {v}],
                      if n == next then next + 1 else next)
  {
  }

  ghost predicate Allocated(to: Edges, from: Edges, next: Node) {
    forall n: Node :: n in to || n in from ==> n < next
  }

  lemma EdgeAllocated(to: Edges, from: Edges, next: Node, n: Node)
    requires Allocated(to, from, next) && n in to && to[n] in from
    ensures n < next && to[n] < next
  {
  }

  lemma StaysAllocated(to: Edges, from: Edges, to': Edges, from': Edges, next: Node, a: Node, b: Node)
    requires Allocated(to, from, next) && a < next && b < next
    requires to'.Keys <= to.Keys + {a} && from'.Keys <= from.Keys + {b}
    ensures Allocated(to', from', next)
  {
  }

  /** A tag, once set, is never replaced by merging. */
  ghost predicate TagsKept(tag: map<Node, Tag>, tag': map<Node, Tag>) {
    forall n :: n in tag ==> n in tag' && tag'[n] == tag[n]
  }

  lemma TagsStay(tag: map<Node, Tag>)
    ensures TagsKept(tag, tag) && TagsFollow(tag, tag, map[])
  {
  }

  /** Where a tagged node has gone there is a tag. */
  ghost predicate TagsFollow(tag: map<Node, Tag>, tag': map<Node, Tag>, f: map<Node, Node>) {
    forall n :: n in tag && n in f ==> f[n] in tag'
  }

  /** Tags are on nodes that are in use. */
  ghost predicate TagsInUse(tag: map<Node, Tag>, n: Node) {
    forall x :: x in tag ==> x < n
  }

  /** The node of `v` carries a tag, and so does the one it had before: its own, or else `tg`. */
  ghost predicate Tagged(v: Value, node: map<Value, Node>, tag: map<Node, Tag>, node': map<Value, Node>,
                         tag': map<Node, Tag>, tg: Tag)
  {
    && v in node' && node'[v] in tag'
    && (v in node ==> node[v] in tag' && tag'[node[v]] == if node[v] in tag then tag[node[v]] else tg)
  }

  /** A node is tagged and then folded into another. */
  lemma FoldedIsTagged(v: Value, node0: map<Value, Node>, tag0: map<Node, Tag>, node1: map<Value, Node>,
                       tag1: map<Node, Tag>, node2: map<Value, Node>, tag2: map<Node, Tag>,
                       f: map<Node, Node>, tg: Tag)
    requires Tagged(v, node0, tag0, node1, tag1, tg) && v in node1
    requires TagsKept(tag1, tag2) && TagsFollow(tag1, tag2, f) && node2 == Moved(node1, f)
    ensures Tagged(v, node0, tag0, node2, tag2, tg)
  {
  }

  /** A value whose node was tagged is in a tagged node. */
  ghost predicate Carried(node: map<Value, Node>, tag: map<Node, Tag>, node': map<Value, Node>, tag': map<Node, Tag>)
  {
    forall v :: v in node && node[v] in tag ==> v in node' && node'[v] in tag'
  }

  lemma FoldCarries(node: map<Value, Node>, tag: map<Node, Tag>, node': map<Value, Node>, tag': map<Node, Tag>,
                    f: map<Node, Node>)
    requires TagsKept(tag, tag') && TagsFollow(tag, tag', f) && node' == Moved(node, f)
    ensures Carried(node, tag, node', tag')
  {
  }

  lemma CarriedIsTagged(v: Value, node0: map<Value, Node>, tag0: map<Node, Tag>, node1: map<Value, Node>,
                        tag1: map<Node, Tag>, node2: map<Value, Node>, tag2: map<Node, Tag>, tg: Tag)
    requires Tagged(v, node0, tag0, node1, tag1, tg) && TagsKept(tag1, tag2) && Carried(node1, tag1, node2, tag2)
    ensures Tagged(v, node0, tag0, node2, tag2, tg)
  {
  }

  /** The node of `v` has a tag other than `tg`, which TBAA takes for disjoint from it. */
  predicate Torn(v: Value, node: map<Value, Node>, tag: map<Node, Tag>, mayAlias: (Tag, Tag) -> bool, tg: Tag) {
    v in node && node[v] in tag && tag[node[v]] != tg && !mayAlias(tag[node[v]], tg)
  }

  lemma TornIsNamed(v: Value, node: map<Value, Node>, tag: map<Node, Tag>, mayAlias: (Tag, Tag) -> bool, tg: Tag)
    ensures Torn(v, node, tag, mayAlias, tg) ==> v in node
  {
  }

  lemma TagsKeptTwice(t0: map<Node, Tag>, t1: map<Node, Tag>, t2: map<Node, Tag>)
    requires TagsKept(t0, t1) && TagsKept(t1, t2)
    ensures TagsKept(t0, t2)
  {
  }

  lemma TagsFollowBoth(t0: map<Node, Tag>, t1: map<Node, Tag>, t2: map<Node, Tag>, t3: map<Node, Tag>,
                       f1: map<Node, Node>, f2: map<Node, Node>, n1: Node, n2: Node)
    requires TagsKept(t0, t1) && TagsKept(t1, t2) && TagsKept(t2, t3) && (n1 in t0 ==> n2 in t1)
    requires TagsFollow(t1, t2, f1) && TagsFollow(t2, t3, f2)
    ensures TagsKept(t0, t3) && TagsFollow(t0, t3, Both(f1, f2, n1, n2))
  {
  }

  /** Moving `n1` to `n2` and then the two halves is moving them all. */
  lemma MovedThrice(m: map<Value, Node>, f1: map<Node, Node>, f2: map<Node, Node>,
                    s: set<Node>, level: Node -> int, n1: Node, n2: Node)
    requires Sides(s, level, n1, n2)
    requires Moves(f1, Ahead(s, level, n1), level) && Moves(f2, Ahead(s, Neg(level), n1), Neg(level))
    ensures Moved(Moved(Moved(m, map[n1 := n2]), f1), f2) == Moved(m, Both(f1, f2, n1, n2))
  {
    forall v | v in m
      ensures Image(f2, Image(f1, Image(map[n1 := n2], m[v]))) == Image(Both(f1, f2, n1, n2), m[v])
    {
      BothImage(f1, f2, s, level, n1, n2, m[v]);
    }
  }

  /** The state of a search for the component of `n`: what was found is connected to `n`, and all
      neighbours of what was seen are seen or still to be looked at. */
  ghost predicate Searching(to: Edges, from: Edges, n: Node, seen: set<Node>, work: seq<Node>) {
    && (n in seen || n in work)
    && (forall x :: x in seen || x in work ==> Connected(to, from, n, x))
    && (forall x :: x in seen && x in to ==> to[x] in seen || to[x] in work)
    && (forall x :: x in seen && x in from ==> from[x] in seen || from[x] in work)
  }

  function Neighbours(to: Edges, from: Edges, n: Node): seq<Node> {
    (if n in to then [to[n]] else []) + (if n in from then [from[n]] else [])
  }

  lemma SearchStarts(to: Edges, from: Edges, n: Node)
    ensures Searching(to, from, n, {}, [n])
  {
    assert Walk(to, from, n, 0) == n;
  }

  lemma SearchStep(to: Edges, from: Edges, n: Node, seen: set<Node>, work: seq<Node>, all: set<Node>)
    requires Inverse(to, from) && Searching(to, from, n, seen, work) && work != []
    requires all == to.Keys + from.Keys + {n}
    ensures Connected(to, from, n, work[0]) && work[0] in all
    ensures work[0] in seen ==> Searching(to, from, n, seen, work[1..])
    ensures Searching(to, from, n, seen + {work[0]}, work[1..] + Neighbours(to, from, work[0]))
  {
    hide Connected;
    var x := work[0];
    assert work == [x] + work[1..];
    ComponentIsConnected(to, from, n, x);
    if x in to {
      ConnectedAlong(to, from, n, x);
    }
    if x in from {
      assert to[from[x]] == x;
      ConnectedAlong(to, from, n, from[x]);
    }
  }

  lemma SearchEnds(to: Edges, from: Edges, n: Node, seen: set<Node>, m: Node)
    requires Inverse(to, from) && Searching(to, from, n, seen, []) && m !in seen
    ensures !Connected(to, from, n, m)
  {
    forall x | x in to ensures x in seen <==> to[x] in seen {
      assert from[to[x]] == x;
    }
    if Connected(to, from, n, m) {
      var k :| Walk(to, from, n, k) == m;
      WalkStays(to, from, seen, n, k);
    }
  }

  /** Lift the nodes of `s` by `d` levels. */
  ghost function Shift(level: Node -> int, s: set<Node>, d: int): Node -> int {
    (x: Node) => if x in s then level(x) + d else level(x)
  }

  /** Two components can always be brought level. */
  lemma Align(to: Edges, from: Edges, level: Node -> int, c: Node, n1: Node, n2: Node)
    requires Inverse(to, from) && Graded(to, level)
    requires Connected(to, from, c, n1) && !Connected(to, from, c, n2)
    ensures var s := Component(to, from, c);
            Foldable(to, from, s, Shift(level, s, level(n2) - level(n1)), n1, n2)
  {
    ComponentIsPath(to, from, level, c);
    ComponentIsConnected(to, from, c, n1);
    ComponentIsConnected(to, from, c, n2);
  }

  lemma JoinKeepsEdges(to: Edges, from: Edges, val: Node, ptr: Node)
    requires Inverse(to, from) && ptr !in to && val !in from
    ensures Inverse(to[ptr := val], from[val := ptr]) && EdgesSurvive(to, to[ptr := val], map[])
  {
    AddEdge(to, from, ptr, val);
    var to' := to[ptr := val];
    forall x | x in to ensures Image(map[], x) in to' && to'[Image(map[], x)] == Image(map[], to[x]) {
      assert x != ptr;
    }
  }

  lemma JoinKeepsLevels(to: Edges, from: Edges, level: Node -> int, val: Node, ptr: Node)
    requires Inverse(to, from) && Graded(to, level)
    requires !Connected(to, from, val, ptr) && ptr !in to
    ensures Graded(to[ptr := val], Shift(level, Component(to, from, val), level(ptr) + 1 - level(val)))
  {
    hide Connected, Component;
    var s := Component(to, from, val);
    ComponentIsPath(to, from, level, val);
    ComponentIsConnected(to, from, val, ptr);
    ConnectedToSelf(to, from, val);
    ComponentIsConnected(to, from, val, val);
    var to', level' := to[ptr := val], Shift(level, s, level(ptr) + 1 - level(val));
    forall x | x in to' ensures level'(to'[x]) == level'(x) + 1 {
      if x != ptr {
        assert x in s <==> to[x] in s;
      }
    }
  }

  /** Joining the path that starts at `val` to the path that ends at `ptr`. */
  lemma Join(to: Edges, from: Edges, level: Node -> int, val: Node, ptr: Node)
    requires Inverse(to, from) && Graded(to, level)
    requires !Connected(to, from, val, ptr) && ptr !in to && val !in from
    ensures Inverse(to[ptr := val], from[val := ptr]) && EdgesSurvive(to, to[ptr := val], map[])
    ensures Graded(to[ptr := val], Shift(level, Component(to, from, val), level(ptr) + 1 - level(val)))
  {
    hide Inverse, Graded, Connected, EdgesSurvive;
    JoinKeepsEdges(to, from, val, ptr);
    JoinKeepsLevels(to, from, level, val, ptr);
  }

  /** Some levels witness that every component is a path. */
  ghost predicate Paths(to: Edges) {
    exists level: Node -> int :: Graded(to, level)
  }

  /** A load adds its edge without asking whether the two nodes are connected already. The
      components stay paths exactly when they are not. */
  lemma LoadKeepsPathsIff(to: Edges, from: Edges, level: Node -> int, val: Node, ptr: Node)
    requires Inverse(to, from) && Graded(to, level) && ptr !in to && val !in from
    ensures Paths(to[ptr := val]) <==> !Connected(to, from, val, ptr)
  {
    var to' := to[ptr := val];
    assert Walk(to, from, val, -1) == -1;
    if Connected(to, from, val, ptr) && Paths(to') {
      var l: Node -> int :| Graded(to', l);
      assert l(to'[ptr]) == l(ptr) + 1;
      var k :| Walk(to, from, val, k) == ptr;
      assert Graded(to, l) by {
        forall x | x in to ensures l(to[x]) == l(x) + 1 {
          assert to'[x] == to[x];
        }
      }
      WalkLevel(to, from, l, val, k);
    }
    if !Connected(to, from, val, ptr) {
      Join(to, from, level, val, ptr);
    }
  }

  /** Nor does it help to merge: whatever is folded onto whatever, and whatever edges are added, when
      `val` is connected to `ptr` otherwise than as its target then edges are lost, or `ptr` does not
      point to `val`, or the components are no longer paths. */
  lemma OnlyTargetsFit(to: Edges, from: Edges, to': Edges, f: map<Node, Node>, val: Node, ptr: Node)
    requires Inverse(to, from) && Connected(to, from, val, ptr)
    requires EdgesSurvive(to, to', f) && Paths(to')
    requires Image(f, ptr) in to' && to'[Image(f, ptr)] == Image(f, val)
    ensures ptr in to && to[ptr] == val
  {
    var l: Node -> int :| Graded(to', l);
    var level := (x: Node) => l(Image(f, x));
    assert Graded(to, level) by {
      forall x | x in to ensures level(to[x]) == level(x) + 1 {
        assert l(to'[Image(f, x)]) == l(Image(f, x)) + 1;
      }
    }
    assert l(to'[Image(f, ptr)]) == l(Image(f, ptr)) + 1;
    var k :| Walk(to, from, val, k) == ptr;
    WalkLevel(to, from, level, val, k);
    assert k == -1 && Walk(to, from, val, 0) == val;
    assert to[from[val]] == val;
  }

  lemma NoNewEdges(to': Edges, f: map<Node, Node>)
    requires EdgesFromEdges(map[], to', f)
    ensures to' == map[]
  {
    assert forall x :: x !in to';
  }

  /** The pointer already has a target: `val` can be folded onto it. */
  lemma TargetIsFoldable(to: Edges, from: Edges, level: Node -> int, val: Node, ptr: Node)
    requires Inverse(to, from) && Graded(to, level) && !Connected(to, from, val, ptr) && ptr in to
    ensures var s := Component(to, from, val);
            Foldable(to, from, s, Shift(level, s, level(to[ptr]) - level(val)), val, to[ptr]) && ptr !in s
  {
    ConnectedAlong(to, from, val, ptr);
    assert Walk(to, from, val, 0) == val;
    Align(to, from, level, val, val, to[ptr]);
  }

  /** The value already has a pointer: it can be folded onto `ptr`. */
  lemma PointerIsFoldable(to: Edges, from: Edges, level: Node -> int, val: Node, ptr: Node)
    requires Inverse(to, from) && Graded(to, level) && !Connected(to, from, val, ptr) && val in from
    ensures var s := Component(to, from, val);
            Foldable(to, from, s, Shift(level, s, level(ptr) - level(from[val])), from[val], ptr)
  {
    assert to[from[val]] == val;
    assert Walk(to, from, val, 0) == val;
    ConnectedAlong(to, from, val, from[val]);
    Align(to, from, level, val, from[val], ptr);
  }

  /** When no edge is lost, folding `val` onto the target of `ptr`, or the pointer of `val` onto
      `ptr`, makes `ptr` point to `val`. */
  lemma FoldedPointsTo(to: Edges, to': Edges, f: map<Node, Node>, s: set<Node>, level: Node -> int, val: Node,
                       ptr: Node, p: Node)
    requires Moves(f, s, level) && EdgesSurvive(to, to', f) && p in to && ptr !in s
    requires (p == ptr && to[p] !in s && Image(f, val) == to[p]) || (to[p] == val && Image(f, p) == ptr)
    ensures Image(f, ptr) in to' && to'[Image(f, ptr)] == Image(f, val)
  {
  }

  lemma AfterMove(g: Graph, g': Graph, f: map<Node, Node>, s: set<Node>, level: Node -> int, v: Value, w: Value)
    requires g'.node == Moved(g.node, f) && v in g.node && w in g.node
    requires Moves(f, s, level) && g.node[w] !in s && (g.node[v] in f ==> f[g.node[v]] == g.node[w])
    ensures KeepsAliases(g, g') && g'.node.Keys == g.node.Keys
    ensures Inverse(g.to, g.from) && Inverse(g'.to, g'.from) && EdgesSurvive(g.to, g'.to, f) ==> Keeps(g, g')
    ensures g.node[v] in f ==> Aliased(g', v, w) && Linked(g', v, w)
  {
    FoldKeeps(g, g', f);
    if g.node[v] in f {
      LinkedToSelf(g', v, w);
    }
  }

  lemma PointsAfterTarget(to: Edges, to': Edges, f: map<Node, Node>, s: set<Node>, level: Node -> int, val: Node,
                          ptr: Node)
    requires ptr in to && EdgesSurvive(to, to', f)
    requires if to[ptr] == val then f == map[]
             else Moves(f, s, level) && ptr !in s && to[ptr] !in s && Image(f, val) == to[ptr]
    ensures Image(f, ptr) in to' && to'[Image(f, ptr)] == Image(f, val)
  {
  }

  lemma FoldableFacts(to: Edges, from: Edges, s: set<Node>, level: Node -> int, n1: Node, n2: Node)
    requires Foldable(to, from, s, level, n1, n2)
    ensures Inverse(to, from) && Graded(to, level) && n1 != n2 && n2 !in s
  {
  }

  lemma EdgeAllocatedAhead(to: Edges, from: Edges, next: Node, n: Node)
    requires Inverse(to, from) && Allocated(to, from, next) && n in to
    ensures to[n] < next
  {
  }

  lemma EdgeAllocatedBehind(to: Edges, from: Edges, next: Node, n: Node)
    requires Inverse(to, from) && Allocated(to, from, next) && n in from
    ensures from[n] < next && from[n] in to && to[from[n]] == n
  {
  }

  /** Naming two values links them only if they are one. */
  lemma NamedLinks(g: Graph, g': Graph, v: Value, w: Value)
    requires Inverse(g.to, g.from) && g'.to == g.to && g'.from == g.from && v in g'.node && w in g'.node && v != w
    requires forall x :: x in g.node ==> x in g'.node && g'.node[x] == g.node[x]
    requires v !in g.node ==> g'.node[v] !in g.to && g'.node[v] !in g.from
    requires w !in g.node ==> g'.node[w] !in g.to && g'.node[w] !in g.from
    requires g'.node[v] == g'.node[w] ==> v in g.node && w in g.node
    ensures Linked(g', v, w) <==> Linked(g, v, w)
  {
    hide Connected;
    if Connected(g'.to, g'.from, g'.node[v], g'.node[w]) && (v !in g.node || w !in g.node) {
      Isolated(g.to, g.from, g'.node[v], g'.node[w]);
    }
  }

  lemma AfterPointTo(g: Graph, g': Graph, f: map<Node, Node>, v: Value, p: Value)
    requires g'.node == Moved(g.node, f) && v in g.node && p in g.node
    ensures KeepsAliases(g, g') && g'.node.Keys == g.node.Keys
    ensures Inverse(g.to, g.from) && Inverse(g'.to, g'.from) && EdgesSurvive(g.to, g'.to, f) ==> Keeps(g, g')
    ensures Image(f, g.node[p]) in g'.to && g'.to[Image(f, g.node[p])] == Image(f, g.node[v]) ==> PointsTo(g', p, v)
  {
    FoldKeeps(g, g', f);
  }

  lemma Isolated(to: Edges, from: Edges, n: Node, m: Node)
    requires Inverse(to, from) && Connected(to, from, n, m)
    requires (n !in to && n !in from) || (m !in to && m !in from)
    ensures n == m
  {
    var k :| Walk(to, from, n, k) == m;
    if n !in to && n !in from {
      IsolatedWalk(to, from, n, k);
    }
  }

  lemma {:induction false} IsolatedWalk(to: Edges, from: Edges, n: Node, k: int)
    requires n !in to && n !in from
    ensures k != 0 ==> Walk(to, from, n, k) == -1
    decreases if k < 0 then -k else k
  {
    if k > 1 {
      IsolatedWalk(to, from, n, k - 1);
    } else if k < -1 {
      IsolatedWalk(to, from, n, k + 1);
    }
  }

  /** The instructions of a run. */
  datatype Command =
    | Alloc(v: Value)
    | Load(res: Value, ptr: Value, tag: Option<Tag>)
    | StoreInst(vop: Value, pop: Value, tag: Option<Tag>)
    | Store(vop: Value, pop: Value)
    | Move(v1: Value, v2: Value)

  function Mentions(c: Command): set<Value> {
    match c
    case Alloc(v) => {v}
    case Load(res, ptr, _) => {res, ptr}
    case StoreInst(vop, pop, _) => {vop, pop}
    case Store(vop, pop) => {vop, pop}
    case Move(v1, v2) => {v1, v2}
  }

  function Mentioned(cs: seq<Command>): set<Value> {
    set c, v | c in cs && v in Mentions(c) :: v
  }

  lemma MentionedNext(cs: seq<Command>, i: nat)
    requires i < |cs|
    ensures Mentioned(cs[..i + 1]) == Mentioned(cs[..i]) + Mentions(cs[i])
  {
    assert cs[..i + 1] == cs[..i] + [cs[i]];
    forall c | c in cs[..i + 1] ensures c in cs[..i] || c == cs[i] {
    }
  }

  /** May `res` be loaded through `ptr`? Not if the two are linked, unless by the very edge that the
      load asks for. */
  ghost predicate LoadOk(g: Graph, res: Value, ptr: Value) {
    res != ptr && (Linked(g, res, ptr) ==> PointsTo(g, ptr, res))
  }

  /** It always may when it is new: neither named before nor its own pointer. */
  predicate Admissible(c: Command, named: set<Value>) {
    c.Load? ==> c.res !in named && c.res != c.ptr
  }

  ghost predicate LoadsAreFresh(cs: seq<Command>, named: set<Value>) {
    forall i :: 0 <= i < |cs| ==> Admissible(cs[i], named + Mentioned(cs[..i]))
  }

  lemma FreshAt(cs: seq<Command>, named: set<Value>, i: nat, now: set<Value>)
    requires LoadsAreFresh(cs, named) && i < |cs| && now <= named + Mentioned(cs[..i])
    ensures Admissible(cs[i], now)
  {
    assert Admissible(cs[i], named + Mentioned(cs[..i]));
  }

  /** What an instruction asks of the graph. A store or move between values already linked is
      skipped, so it only asks for the link. */
  ghost predicate Holds(g: Graph, c: Command) {
    match c
    case Alloc(v) => v in g.node
    case Load(res, ptr, _) => PointsTo(g, ptr, res)
    case StoreInst(vop, pop, _) => vop.isConstantData || Linked(g, vop, pop)
    case Store(vop, pop) => vop.isConstantData || Linked(g, vop, pop)
    case Move(v1, v2) => Linked(g, v1, v2)
  }

  lemma KeepsHolding(g: Graph, g': Graph, c: Command)
    requires Keeps(g, g') && Holds(g, c)
    ensures Holds(g', c)
  {
    hide Linked, PointsTo, Aliased;
  }

  /** Naming the operands leaves it so. */
  lemma NamedLoad(g: Graph, g': Graph, res: Value, ptr: Value)
    requires LoadOk(g, res, ptr) && g'.to == g.to && res in g'.node && ptr in g'.node
    requires forall x :: x in g.node ==> x in g'.node && g'.node[x] == g.node[x]
    requires res != ptr ==> (Linked(g', res, ptr) <==> Linked(g, res, ptr))
    ensures res != ptr
    ensures var n, m := g'.node[res], g'.node[ptr];
            Connected(g'.to, g'.from, n, m) ==> m in g'.to && g'.to[m] == n
  {
  }

  lemma FreshLoadIsOk(g: Graph, c: Command)
    requires c.Load? && Admissible(c, g.node.Keys)
    ensures LoadOk(g, c.res, c.ptr)
  {
  }

  class AliasContext {

    var nodeMap: map<Value, Node>
    var to: Edges
    var from: Edges
    /** The values of each node. */
    var aliasclass: map<Node, set<Value>>
    /** The node's TBAATag; absent for nullptr. */
    var tag: map<Node, Tag>
    /** The next unused node. */
    var nextNode: Node
    /** Built with ENABLE_TBAA_ALIAS_REFINEMENT? And the verdict of mayAliasByTBAA. */
    const tbaa: bool
    const mayAlias: (Tag, Tag) -> bool
    /** How many merges TBAA has blocked: g_NumTBAABlockedMerges. */
    var blocked: nat
    /** A witness that components are paths. */
    ghost var level: Node -> int

    ghost predicate Valid()
      reads this
    {
      && Partition(nodeMap, aliasclass, nextNode)
      && Inverse(to, from) && Graded(to, level)
      && Allocated(to, from, nextNode) && TagsInUse(tag, nextNode)
    }

    ghost function Now(): Graph
      reads this
    {
      Graph(nodeMap, to, from)
    }

    /** TBAA cannot object to a merge. */
    ghost predicate NoVeto() {
      tbaa ==> forall a: Tag, b: Tag :: mayAlias(a, b)
    }

    /** Blocked merges are counted, and there are none where TBAA cannot object. */
    twostate predicate Counted()
      reads this
    {
      blocked >= old(blocked) && (NoVeto() ==> blocked == old(blocked))
    }

    constructor (tbaa: bool, mayAlias: (Tag, Tag) -> bool)
      ensures Valid() && Now() == Graph(map[], map[], map[])
      ensures this.tbaa == tbaa && this.mayAlias == mayAlias && blocked == 0
    {
      nodeMap, to, from, aliasclass, tag, nextNode, blocked := map[], map[], map[], map[], map[], 0, 0;
      this.tbaa, this.mayAlias := tbaa, mayAlias;
      level := (x: Node) => 0;
    }

    /** shouldMergeByTBAA under the build switch. */
    predicate ShouldMerge(n1: Node, n2: Node)
      reads this
    {
      tbaa && n1 in tag && n2 in tag ==> mayAlias(tag[n1], tag[n2])
    }

    /** The values of `n1` go to `n2`. */
    method MoveValues(n1: Node, n2: Node)
      requires Valid() && n1 < nextNode && n2 < nextNode && n1 != n2
      modifies this`nodeMap, this`aliasclass
      ensures Valid() && nodeMap == Moved(old(nodeMap), map[n1 := n2])
    {
      hide Partition, Inverse, Graded;
      ghost var class0, map0 := aliasclass, nodeMap;
      ClassOf(nodeMap, aliasclass, nextNode, n1);
      ClassOf(nodeMap, aliasclass, nextNode, n2);
      var rest := aliasclass[n1];
      ghost var done := {};
      assert class0[n2] + done == class0[n2];
      while rest != {}
        invariant rest !! done && rest + done == class0[n1]
        invariant n2 in aliasclass && aliasclass == class0[n2 := class0[n2] + done]
        invariant nodeMap == Reassigned(map0, done, n2)
        decreases rest
      {
        var v :| v in rest;
        rest, done := rest - {v}, done + {v};
        aliasclass := aliasclass[n2 := aliasclass[n2] + {v}];
        nodeMap := nodeMap[v := n2];
        assert class0[n2] + (done - {v}) + {v} == class0[n2] + done;
      }
      assert done == class0[n1];
      ReassignedIsMoved(map0, class0, nextNode, n1, n2);
      aliasclass := aliasclass[n1 := {}];
      MovingKeepsPartition(map0, class0, aliasclass, nextNode, n1, n2);
    }

    /** Merge `n1` into `n2`, and everything in line with them: what they point to, and what points
        to them. `f` says where each node went; when TBAA blocks nothing the two paths are zipped
        together, and nothing more than that is identified. Two nodes with tags that TBAA takes for
        disjoint are left as they are, and counted; any other two become one, which carries the tag
        of `n2`, or else that of `n1`. */
    method MergeNode(n1: Node, n2: Node, ghost s: set<Node>) returns (ghost f: map<Node, Node>)
      requires Valid() && n1 < nextNode && n2 < nextNode
      requires n1 != n2 ==> Foldable(to, from, s, level, n1, n2)
      modifies this`nodeMap, this`to, this`from, this`aliasclass, this`tag, this`blocked
      ensures Valid() && Counted() && nodeMap == Moved(old(nodeMap), f)
      ensures Moves(f, s, level) && EdgesFromEdges(old(to), to, f) && Forced(old(to), f, n1, n2)
      ensures n1 != n2 ==> (n1 in f <==> old(ShouldMerge(n1, n2))) && (n1 in f ==> f[n1] == n2)
      ensures n1 == n2 || !old(ShouldMerge(n1, n2)) ==> Now() == old(Now()) && f == map[]
      ensures old(tbaa && n1 in tag && n2 in tag && !mayAlias(tag[n1], tag[n2])) ==>
                Now() == old(Now()) && tag == old(tag) && blocked == old(blocked) + 1
      ensures n1 != n2 && old(!tbaa || n1 !in tag || n2 !in tag || mayAlias(tag[n1], tag[n2])) ==>
                n1 in f && f[n1] == n2
      ensures tbaa && n1 in old(tag) && n2 !in old(tag) ==> n2 in tag && tag[n2] == old(tag)[n1]
      ensures blocked == old(blocked) ==> old(ShouldMerge(n1, n2))
      ensures blocked == old(blocked) ==> EdgesSurvive(old(to), to, f) && Least(old(to), f, n1, n2)
      ensures TagsKept(old(tag), tag) && if tbaa then TagsFollow(old(tag), tag, f) else tag == old(tag)
      decreases s, 1
    {
      hide Inverse, Graded, OneALevel, Closed, HalfClosed, Moves, Partition, Moved, Forced;
      hide EdgesFromEdges, EdgesSurvive, HalfFromEdges, HalfSurvives, Least;
      f := map[];
      MovedNowhere(nodeMap);
      TagsStay(tag);
      if !ShouldMerge(n1, n2) {
        blocked := blocked + 1;
        NothingFolds(to, s, level, n1, n2);
        return;
      }
      if tbaa && n2 !in tag && n1 in tag {
        tag := tag[n2 := tag[n1]];
      }
      if n1 == n2 {
        NothingFolds(to, s, level, n1, n2);
        if blocked == old(blocked) {
          FoldingIsLeast(to, to, from, f, n1, n2);
        }
        return;
      }
      ghost var tag1 := tag;
      MoveValues(n1, n2);
      FoldableIsReady(to, from, s, level, n1, n2);
      ghost var to0, from0 := to, from;
      ghost var f1 := MergeAhead(n1, n2, s);
      ghost var to1, from1, tag2 := to, from, tag;
      OtherHalfIsReady(to0, from0, to1, from1, f1, s, level, n1, n2);
      ghost var f2 := MergeBehind(n1, n2, s);
      f := Both(f1, f2, n1, n2);
      if tbaa {
        TagsFollowBoth(old(tag), tag1, tag2, tag, f1, f2, n1, n2);
      }
      MovedThrice(old(nodeMap), f1, f2, s, level, n1, n2);
      BothMoves(f1, f2, s, level, n1, n2);
      BothFromEdges(to0, from0, to1, from1, to, from, f1, f2, s, level, n1, n2);
      BothForced(to0, to1, from1, f1, f2, n1, n2);
      if blocked == old(blocked) {
        BothSurvive(to0, to1, from1, to, from, f1, f2, s, level, n1, n2);
        BothImage(f1, f2, s, level, n1, n2, n1);
        BothImage(f1, f2, s, level, n1, n2, n2);
        FoldingIsLeast(to0, to, from, f, n1, n2);
      }
      GradedKept(to0, to, f, s, level);
    }

    /** The part of MergeNode that follows the edges out of `n1` and `n2`. */
    method MergeAhead(n1: Node, n2: Node, ghost s: set<Node>) returns (ghost f: map<Node, Node>)
      requires Valid() && n1 < nextNode && n2 < nextNode
      requires Ready(to, from, s, level, n1, n2)
      modifies this`nodeMap, this`to, this`from, this`aliasclass, this`tag, this`blocked
      ensures Valid() && Counted() && nodeMap == Moved(old(nodeMap), f)
      ensures HalfFolded(old(to), to, from, f, s, level, n1, n2) && Forced(old(to), f, n1, n2)
      ensures blocked == old(blocked) ==> HalfSurvives(old(to), to, f, n1, n2)
      ensures TagsKept(old(tag), tag) && if tbaa then TagsFollow(old(tag), tag, f) else tag == old(tag)
      decreases s, 0
    {
      hide Inverse, Graded, Moves, Partition, Allocated, Moved, Forced, Ready, Foldable, Ahead;
      hide TagsKept, TagsFollow, TagsInUse, NoVeto, ShouldMerge;
      hide EdgesFromEdges, EdgesSurvive, HalfFolded, HalfSurvives, Least;
      f := map[];
      MovedNowhere(nodeMap);
      TagsStay(tag);
      ReadyEdges(to, from, s, level, n1, n2);
      if n1 in to {
        var t1 := to[n1];
        if n2 in to {
          var t2 := to[n2];
          CutIsFoldable(to, from, s, level, n1, n2);
          EdgeAllocated(to, from, nextNode, n1);
          EdgeAllocated(to, from, nextNode, n2);
          if t1 == t2 {
          } else {
            to := to - {n1, n2};
            from := from - {t1, t2};
            StaysAllocated(old(to), old(from), to, from, nextNode, n1, n1);
            f := MergeNode(t1, t2, Ahead(s, level, n1));
            RestoreFolds(old(to), old(from), to, from, f, s, level, n1, n2);
            if blocked == old(blocked) {
              RestoreSurvives(old(to), old(from), to, f, s, level, n1, n2);
            }
            CutForced(old(to), f, n1, n2);
            StaysAllocated(to, from, to[n2 := t2], from[t2 := n2], nextNode, n2, t2);
            to := to[n2 := t2];
            from := from[t2 := n2];
          }
        } else {
          TakeOver(to, from, s, level, n1, n2);
          EdgeAllocated(to, from, nextNode, n1);
          to := (to - {n1})[n2 := t1];
          from := from[t1 := n2];
          StaysAllocated(old(to), old(from), to, from, nextNode, n2, t1);
        }
      } else {
        NothingAhead(to, from, s, level, n1, n2);
      }
      HalfKeepsShape(old(to), to, from, f, s, level, n1, n2);
    }

    /** The part of MergeNode that follows the edges into `n1` and `n2`. */
    method MergeBehind(n1: Node, n2: Node, ghost s: set<Node>) returns (ghost f: map<Node, Node>)
      requires Valid() && n1 < nextNode && n2 < nextNode
      requires Ready(from, to, s, Neg(level), n1, n2)
      modifies this`nodeMap, this`to, this`from, this`aliasclass, this`tag, this`blocked
      ensures Valid() && Counted() && nodeMap == Moved(old(nodeMap), f)
      ensures HalfFolded(old(from), from, to, f, s, Neg(level), n1, n2) && Forced(old(from), f, n1, n2)
      ensures blocked == old(blocked) ==> HalfSurvives(old(from), from, f, n1, n2)
      ensures TagsKept(old(tag), tag) && if tbaa then TagsFollow(old(tag), tag, f) else tag == old(tag)
      decreases s, 0
    {
      hide Inverse, Graded, Moves, Partition, Allocated, Moved, Forced, Ready, Foldable, Ahead;
      hide TagsKept, TagsFollow, TagsInUse, NoVeto, ShouldMerge;
      hide EdgesFromEdges, EdgesSurvive, HalfFolded, HalfSurvives, Least;
      f := map[];
      MovedNowhere(nodeMap);
      TagsStay(tag);
      ReadyEdges(from, to, s, Neg(level), n1, n2);
      if n1 in from {
        var p1 := from[n1];
        if n2 in from {
          var p2 := from[n2];
          CutIsFoldable(from, to, s, Neg(level), n1, n2);
          EdgeAllocated(to, from, nextNode, p1);
          EdgeAllocated(to, from, nextNode, p2);
          if p1 == p2 {
          } else {
            from := from - {n1, n2};
            to := to - {p1, p2};
            StaysAllocated(old(to), old(from), to, from, nextNode, n1, n1);
            ghost var toCut, fromCut := to, from;
            FoldableMirror(to, from, Ahead(s, Neg(level), n1), level, p1, p2);
            FoldableFacts(to, from, Ahead(s, Neg(level), n1), level, p1, p2);
            f := MergeNode(p1, p2, Ahead(s, Neg(level), n1));
            RestoreFoldsMirror(old(to), old(from), toCut, fromCut, to, from, f, s, level, n1, n2);
            StaysAllocated(to, from, to[p2 := n2], from[n2 := p2], nextNode, p2, n2);
            from := from[n2 := p2];
            to := to[p2 := n2];
          }
        } else {
          TakeOver(from, to, s, Neg(level), n1, n2);
          ReadyEdges(from, to, s, Neg(level), n1, n2);
          EdgeAllocated(to, from, nextNode, p1);
          from := (from - {n1})[n2 := p1];
          to := to[p1 := n2];
          StaysAllocated(old(to), old(from), to, from, nextNode, p1, n2);
        }
      } else {
        NothingAhead(from, to, s, Neg(level), n1, n2);
      }
      HalfKeepsShapeMirror(old(from), from, to, f, s, level, n1, n2);
    }

    /** Is `node2` in the component of `node1`? A search along edges both ways. */
    method CheckNodeConnectivity(node1: Node, node2: Node) returns (r: bool)
      requires Valid()
      ensures r <==> Connected(to, from, node1, node2)
    {
      hide Partition, Allocated, Connected, Inverse, Graded;
      var work, seen := [node1], {};
      ghost var all := to.Keys + from.Keys + {node1};
      SearchStarts(to, from, node1);
      while work != []
        invariant Searching(to, from, node1, seen, work) && node2 !in seen && seen <= all
        decreases all - seen, |work|
      {
        var n := work[0];
        SearchStep(to, from, node1, seen, work, all);
        work := work[1..];
        if n in seen {
          continue;
        }
        seen := seen + {n};
        if n == node2 {
          return true;
        }
        if n in to {
          work := work + [to[n]];
        }
        if n in from {
          work := work + [from[n]];
        }
      }
      SearchEnds(to, from, node1, seen, node2);
      return false;
    }

    /** getNode, or a new node holding just `v`. */
    method GetNode(v: Value) returns (n: Node)
      requires Valid()
      modifies this`nodeMap, this`aliasclass, this`nextNode
      ensures Valid() && Keeps(old(Now()), Now())
      ensures v in old(nodeMap) ==> nodeMap == old(nodeMap) && nextNode == old(nextNode)
      ensures v !in old(nodeMap) ==> nodeMap == old(nodeMap)[v := old(nextNode)] && n !in to && n !in from
      ensures v !in old(nodeMap) ==> forall w :: w in old(nodeMap) ==> nodeMap[w] != n
      ensures v in nodeMap && n == nodeMap[v] && n < nextNode && nextNode >= old(nextNode)
    {
      hide Inverse, Graded;
      if v in nodeMap {
        return nodeMap[v];
      }
      NamingKeeps(Now(), v, nextNode);
      NamingKeepsPartition(nodeMap, aliasclass, nextNode, v, nextNode);
      n := nextNode;
      nextNode := nextNode + 1;
      assert {} + {v} == {v};
      aliasclass := aliasclass[n := {v}];
      nodeMap := nodeMap[v := n];
    }

    /** Nodes for the two operands of an instruction, which so far link them no more than they were. */
    method NameBoth(v: Value, w: Value) returns (node1: Node, node2: Node)
      requires Valid()
      modifies this`nodeMap, this`aliasclass, this`nextNode
      ensures Valid() && nodeMap.Keys == old(nodeMap.Keys) + {v, w}
      ensures Keeps(old(Now()), Now()) && KeepsAliases(old(Now()), Now())
      ensures nodeMap[v] == node1 < nextNode && nodeMap[w] == node2 < nextNode
      ensures forall x :: x in old(nodeMap) ==> nodeMap[x] == old(nodeMap)[x]
      ensures v != w ==> (Linked(Now(), v, w) <==> old(Linked(Now(), v, w)))
      ensures v !in old(nodeMap) ==> node1 !in tag
      ensures v != w && w !in old(nodeMap) ==> node1 != node2
    {
      hide Inverse, Graded, Partition, Allocated, Keeps, KeepsAliases, Connected, Linked;
      ghost var g0 := Now();
      node1 := GetNode(v);
      ghost var g1 := Now();
      node2 := GetNode(w);
      if v != w {
        NamedLinks(g0, Now(), v, w);
      }
      KeepsTwice(g0, g1, Now());
      KeepsBoth(g0, Now());
    }

    /** Make `ptr` point to `val`, merging with what it points to already, or with what already
        points to `val`. Shared by loads and stores. */
    method PointTo(val: Node, ptr: Node) returns (ghost f: map<Node, Node>)
      requires Valid() && val < nextNode && ptr < nextNode
      requires !Connected(to, from, val, ptr) || (ptr in to && to[ptr] == val)
      modifies this`nodeMap, this`to, this`from, this`aliasclass, this`tag, this`level, this`blocked
      ensures Valid() && Counted() && nodeMap == Moved(old(nodeMap), f)
      ensures TagsKept(old(tag), tag) && if tbaa then TagsFollow(old(tag), tag, f) else tag == old(tag)
      ensures blocked == old(blocked) ==> EdgesSurvive(old(to), to, f)
      ensures blocked == old(blocked) ==> Image(f, ptr) in to && to[Image(f, ptr)] == Image(f, val)
      ensures ptr !in old(to) && val !in old(from) ==> f == map[] && to == old(to)[ptr := val]
    {
      hide Inverse, Graded, Moves, Partition, Moved, Forced, TagsKept, EdgesFromEdges, EdgesSurvive, Connected, Least;
      hide Shift, Component, Foldable;
      ghost var to0, from0, level0, s := to, from, level, Component(to, from, val);
      if ptr in to {
        var target := to[ptr];
        EdgeAllocatedAhead(to, from, nextNode, ptr);
        if target != val {
          TargetIsFoldable(to, from, level, val, ptr);
          level := Shift(level0, s, level0(target) - level0(val));
          FoldableFacts(to, from, s, level, val, target);
        }
        f := MergeNode(val, target, s);
        if blocked == old(blocked) {
          PointsAfterTarget(to0, to, f, s, level, val, ptr);
        }
      } else if val in from {
        var pointer := from[val];
        EdgeAllocatedBehind(to, from, nextNode, val);
        PointerIsFoldable(to, from, level, val, ptr);
        level := Shift(level0, s, level0(ptr) - level0(pointer));
        FoldableFacts(to, from, s, level, pointer, ptr);
        f := MergeNode(pointer, ptr, s);
        if blocked == old(blocked) {
          FoldedPointsTo(to0, to, f, s, level, val, ptr, pointer);
        }
      } else {
        Join(to, from, level, val, ptr);
        StaysAllocated(to, from, to[ptr := val], from[val := ptr], nextNode, ptr, val);
        to := to[ptr := val];
        from := from[val := ptr];
        level := Shift(level0, s, level0(ptr) + 1 - level0(val));
        f := map[];
        MovedNowhere(nodeMap);
        TagsStay(tag);
      }
    }

    method HandleAlloc(v: Value)
      requires Valid()
      modifies this
      ensures Valid() && v in nodeMap && nodeMap.Keys == old(nodeMap.Keys) + {v}
      ensures Keeps(old(Now()), Now()) && to == old(to) && blocked == old(blocked)
      ensures v !in old(nodeMap) ==> forall w :: w in nodeMap && w != v ==> nodeMap[w] != nodeMap[v]
    {
      hide Inverse, Graded, Keeps;
      var n := GetNode(v);
    }

    /** The load's tag goes to both nodes, where they have none. */
    method TagLoad(res: Value, ptr: Value, node1: Node, node2: Node, tg: Option<Tag>, ghost node0: map<Value, Node>)
      requires Valid() && node1 < nextNode && node2 < nextNode
      requires res in nodeMap && nodeMap[res] == node1 && (res in node0 ==> node0[res] == node1)
      requires ptr in nodeMap && nodeMap[ptr] == node2 && (ptr in node0 ==> node0[ptr] == node2)
      modifies this`tag
      ensures Valid() && TagsKept(old(tag), tag)
      ensures tbaa && tg.Some? ==> Tagged(res, node0, old(tag), nodeMap, tag, tg.value)
      ensures tbaa && tg.Some? ==> Tagged(ptr, node0, old(tag), nodeMap, tag, tg.value)
      ensures tbaa && tg.Some? ==> tag.Keys == old(tag.Keys) + {node1, node2}
      ensures !tbaa || tg.None? ==> tag == old(tag)
    {
      hide Partition, Inverse, Graded, Allocated;
      if tbaa && tg.Some? {
        if node2 !in tag {
          tag := tag[node2 := tg.value];
        }
        if node1 !in tag {
          tag := tag[node1 := tg.value];
        }
      }
    }

    /** The store's tag goes to the memory node; a function stored into two slots that cannot
        alias loses its tag. */
    method TagStore(vop: Value, pop: Value, node1: Node, node2: Node, tg: Option<Tag>, ghost node0: map<Value, Node>)
      requires Valid() && vop in nodeMap && nodeMap[vop] == node1 && pop in nodeMap && nodeMap[pop] == node2
      requires node2 < nextNode && (pop in node0 ==> node0[pop] == node2)
      requires if vop in node0 then node0[vop] == node1 else node1 !in tag
      modifies this`tag, this`nodeMap, this`aliasclass, this`nextNode
      ensures Valid() && Now() == old(Now()) && nextNode == old(nextNode)
      ensures !tbaa || tg.None? ==> tag == old(tag)
      ensures forall n :: n in old(tag) && (n != node1 || !vop.isFunction) ==> n in tag && tag[n] == old(tag)[n]
      ensures forall n :: n in tag && n !in old(tag) ==> tg == Some(tag[n]) && (n == node1 || n == node2)
      ensures tbaa && tg.Some? ==>
                var torn := vop.isFunction && Torn(vop, node0, old(tag), mayAlias, tg.value);
                && (torn ==> node1 !in tag)
                && (!torn || node1 != node2 ==> Tagged(pop, node0, old(tag), nodeMap, tag, tg.value))
                && (!torn && vop.isFunction ==> Tagged(vop, node0, old(tag), nodeMap, tag, tg.value))
    {
      hide Inverse, Graded, Partition;
      if tbaa && tg.Some? {
        if node2 !in tag {
          tag := tag[node2 := tg.value];
        }
        if vop.isFunction {
          var funcNode := GetNode(vop);
          if funcNode !in tag {
            tag := tag[funcNode := tg.value];
          } else if tag[funcNode] != tg.value && !mayAlias(tag[funcNode], tg.value) {
            tag := tag - {funcNode};
          }
        }
      }
    }

    /** What one handled instruction leaves behind. */
    twostate predicate Grown(v: Value, w: Value)
      reads this
    {
      && Valid() && Counted() && nodeMap.Keys == old(nodeMap.Keys) + {v, w}
      && KeepsAliases(old(Now()), Now()) && (blocked == old(blocked) ==> Keeps(old(Now()), Now()))
    }

    /** res = *ptr. There is no connectivity check here: the result must not be linked to the
        pointer yet, unless by the very edge this load asks for. */
    method HandleLoad(res: Value, ptr: Value, tg: Option<Tag>)
      requires Valid() && LoadOk(Now(), res, ptr)
      modifies this
      ensures Grown(res, ptr)
      ensures blocked == old(blocked) ==> PointsTo(Now(), ptr, res)
      ensures TagsKept(old(tag), tag) && (!tbaa ==> tag == old(tag))
      ensures tbaa && tg.Some? ==> Tagged(res, old(nodeMap), old(tag), nodeMap, tag, tg.value)
      ensures tbaa && tg.Some? ==> Tagged(ptr, old(nodeMap), old(tag), nodeMap, tag, tg.value)
    {
      hide Inverse, Graded, Partition, Allocated, Keeps, KeepsAliases, EdgesSurvive, Connected, Moved, Linked;
      hide LoadOk, PointsTo, TagsKept, TagsFollow, TagsInUse, Tagged;
      ghost var g0 := Now();
      var node1, node2 := NameBoth(res, ptr);
      ghost var g1 := Now();
      NamedLoad(g0, g1, res, ptr);
      TagsStay(tag);
      TagLoad(res, ptr, node1, node2, tg, old(nodeMap));
      ghost var tag1 := tag;
      ghost var f := PointTo(node1, node2);
      AfterPointTo(g1, Now(), f, res, ptr);
      TagsKeptTwice(old(tag), tag1, tag);
      if tbaa && tg.Some? {
        FoldedIsTagged(res, old(nodeMap), old(tag), g1.node, tag1, nodeMap, tag, f, tg.value);
        FoldedIsTagged(ptr, old(nodeMap), old(tag), g1.node, tag1, nodeMap, tag, f, tg.value);
      }
      KeepsTwice(g0, g1, Now());
    }

    /** The shared end of both stores: nothing if the two are linked already. */
    method StoreInto(vop: Value, pop: Value, node1: Node, node2: Node)
      requires Valid() && vop in nodeMap && pop in nodeMap && nodeMap[vop] == node1 && nodeMap[pop] == node2
      modifies this
      ensures Grown(vop, pop)
      ensures old(Linked(Now(), vop, pop)) ==> Now() == old(Now())
      ensures blocked == old(blocked) ==> Linked(Now(), vop, pop)
      ensures blocked == old(blocked) && !old(Linked(Now(), vop, pop)) ==> PointsTo(Now(), pop, vop)
      ensures TagsKept(old(tag), tag) && (tbaa ==> Carried(old(nodeMap), old(tag), nodeMap, tag))
      ensures !tbaa || old(Linked(Now(), vop, pop)) ==> tag == old(tag)
    {
      hide Inverse, Graded, Partition, Allocated, Keeps, KeepsAliases, EdgesSurvive, Connected, Moved;
      hide TagsKept, TagsFollow, Carried, TagsInUse;
      ghost var g := Now();
      KeepsSame(g);
      TagsStay(tag);
      MovedNowhere(nodeMap);
      FoldCarries(nodeMap, tag, nodeMap, tag, map[]);
      var linked := CheckNodeConnectivity(node1, node2);
      if linked {
        return;
      }
      NodeOf(nodeMap, aliasclass, nextNode, vop);
      NodeOf(nodeMap, aliasclass, nextNode, pop);
      ghost var f := PointTo(node1, node2);
      AfterPointTo(g, Now(), f, vop, pop);
      if tbaa {
        FoldCarries(old(nodeMap), old(tag), nodeMap, tag, f);
      }
      if blocked == old(blocked) {
        PointerIsLinked(Now(), pop, vop);
      }
    }

    /** *pop = vop, from a store instruction carrying a TBAA tag. */
    method HandleStoreInst(vop: Value, pop: Value, tg: Option<Tag>)
      requires Valid()
      modifies this
      ensures Valid() && (vop.isConstantData ==> Now() == old(Now()) && tag == old(tag) && blocked == old(blocked))
      ensures !vop.isConstantData ==> Grown(vop, pop)
      ensures blocked == old(blocked) && !vop.isConstantData ==> Linked(Now(), vop, pop)
      ensures blocked == old(blocked) && !vop.isConstantData && vop != pop && !old(Linked(Now(), vop, pop)) ==>
                PointsTo(Now(), pop, vop)
      ensures !tbaa ==> tag == old(tag)
      ensures !vop.isFunction ==> TagsKept(old(tag), tag)
      ensures tbaa && tg.Some? && !vop.isConstantData ==>
                var torn := vop.isFunction && Torn(vop, old(nodeMap), old(tag), mayAlias, tg.value);
                && (torn && old(Linked(Now(), vop, pop)) ==> nodeMap[vop] !in tag)
                && (!torn || !old(Aliased(Now(), vop, pop)) ==>
                      Tagged(pop, old(nodeMap), old(tag), nodeMap, tag, tg.value))
                && (!torn && vop.isFunction ==> Tagged(vop, old(nodeMap), old(tag), nodeMap, tag, tg.value))
    {
      hide Inverse, Graded, Partition, Allocated, Keeps, KeepsAliases, EdgesSurvive, Connected, Moved;
      hide Carried, TagsInUse, Tagged, Torn, NoVeto;
      TagsStay(tag);
      ghost var g0 := Now();
      if vop.isConstantData {
        return;
      }
      var node1, node2 := NameBoth(vop, pop);
      ghost var g1 := Now();
      TagStore(vop, pop, node1, node2, tg, old(nodeMap));
      ghost var tag1 := tag;
      StoreInto(vop, pop, node1, node2);
      if tbaa && tg.Some? {
        TornIsNamed(vop, old(nodeMap), old(tag), mayAlias, tg.value);
        if Tagged(pop, old(nodeMap), old(tag), g1.node, tag1, tg.value) {
          CarriedIsTagged(pop, old(nodeMap), old(tag), g1.node, tag1, nodeMap, tag, tg.value);
        }
        if Tagged(vop, old(nodeMap), old(tag), g1.node, tag1, tg.value) {
          CarriedIsTagged(vop, old(nodeMap), old(tag), g1.node, tag1, nodeMap, tag, tg.value);
        }
      }
      KeepsTwice(g0, g1, Now());
    }

    /** *pop = vop, without an instruction to take a tag from. */
    method HandleStore(vop: Value, pop: Value)
      requires Valid()
      modifies this
      ensures Valid() && (vop.isConstantData ==> Now() == old(Now()) && tag == old(tag) && blocked == old(blocked))
      ensures !vop.isConstantData ==> Grown(vop, pop)
      ensures blocked == old(blocked) && !vop.isConstantData ==> Linked(Now(), vop, pop)
      ensures blocked == old(blocked) && !vop.isConstantData && vop != pop && !old(Linked(Now(), vop, pop)) ==>
                PointsTo(Now(), pop, vop)
    {
      hide Inverse, Graded, Partition, Allocated, Keeps, KeepsAliases, EdgesSurvive, Connected, Moved;
      ghost var g0 := Now();
      if vop.isConstantData {
        return;
      }
      var node1, node2 := NameBoth(vop, pop);
      ghost var g1 := Now();
      StoreInto(vop, pop, node1, node2);
      KeepsTwice(g0, g1, Now());
    }

    /** The end of HandleMove: merge two nodes that are not linked. */
    method MergeApart(v1: Value, v2: Value, node1: Node, node2: Node)
      requires Valid() && v1 in nodeMap && v2 in nodeMap && nodeMap[v1] == node1 && nodeMap[v2] == node2
      requires !Connected(to, from, node1, node2)
      modifies this
      ensures Grown(v1, v2)
      ensures blocked == old(blocked) ==> Aliased(Now(), v1, v2) && Linked(Now(), v1, v2)
      ensures old(to) == map[] ==> to == map[]
    {
      hide Inverse, Graded, Partition, Allocated, Keeps, KeepsAliases, EdgesSurvive, Connected, Moved, Forced;
      hide Component, EdgesFromEdges, Moves, Shift, Least;
      ghost var g, s := Now(), Component(to, from, node1);
      NodeOf(nodeMap, aliasclass, nextNode, v1);
      NodeOf(nodeMap, aliasclass, nextNode, v2);
      ConnectedToSelf(to, from, node1);
      Align(to, from, level, node1, node1, node2);
      level := Shift(level, s, level(node2) - level(node1));
      FoldableFacts(to, from, s, level, node1, node2);
      ghost var f := MergeNode(node1, node2, s);
      AfterMove(g, Now(), f, s, level, v1, v2);
      if old(to) == map[] {
        NoNewEdges(to, f);
      }
    }

    /** v1 = v2. */
    method HandleMove(v1: Value, v2: Value)
      requires Valid()
      modifies this
      ensures Grown(v1, v2)
      ensures blocked == old(blocked) ==> Linked(Now(), v1, v2)
      ensures blocked == old(blocked) && !old(Linked(Now(), v1, v2)) ==> Aliased(Now(), v1, v2)
      ensures v1 !in old(nodeMap) ==> Aliased(Now(), v1, v2)
      ensures old(to) == map[] ==> to == map[]
    {
      hide Inverse, Graded, Partition, Allocated, Keeps, KeepsAliases, EdgesSurvive, Connected, Moved;
      ghost var g0 := Now();
      var node2 := GetNode(v2);
      ghost var g1 := Now();
      KeepsBoth(g0, g1);
      if v1 !in nodeMap {
        NamingKeeps(g1, v1, node2);
        NamingKeepsPartition(nodeMap, aliasclass, nextNode, v1, node2);
        ClassOf(nodeMap, aliasclass, nextNode, node2);
        aliasclass := aliasclass[node2 := aliasclass[node2] + {v1}];
        nodeMap := nodeMap[v1 := node2];
        KeepsTwice(g0, g1, Now());
        KeepsBoth(g0, Now());
        LinkedToSelf(Now(), v1, v2);
        return;
      }
      var node1 := nodeMap[v1];
      if node1 == node2 {
        LinkedToSelf(Now(), v1, v2);
        return;
      }
      NamedLinks(g0, g1, v1, v2);
      var linked := CheckNodeConnectivity(node1, node2);
      if linked {
        return;
      }
      MergeApart(v1, v2, node1, node2);
      KeepsTwice(g0, g1, Now());
    }

    /** One instruction, dispatched to its handler. */
    method Handle(c: Command)
      requires Valid() && (c.Load? ==> LoadOk(Now(), c.res, c.ptr))
      modifies this
      ensures Valid() && Counted() && nodeMap.Keys <= old(nodeMap.Keys) + Mentions(c)
      ensures KeepsAliases(old(Now()), Now())
      ensures blocked == old(blocked) ==> Keeps(old(Now()), Now()) && Holds(Now(), c)
    {
      hide Inverse, Graded, Partition, Allocated, Keeps, KeepsAliases, Linked, PointsTo;
      ghost var g := Now();
      KeepsSame(g);
      match c
      case Alloc(v) =>
        HandleAlloc(v);
        KeepsBoth(g, Now());
      case Load(res, ptr, tg) =>
        HandleLoad(res, ptr, tg);
      case StoreInst(vop, pop, tg) =>
        HandleStoreInst(vop, pop, tg);
      case Store(vop, pop) =>
        HandleStore(vop, pop);
      case Move(v1, v2) =>
        HandleMove(v1, v2);
    }

    /** Is the load one that HandleLoad can take? */
    method LoadIsOk(res: Value, ptr: Value) returns (ok: bool)
      requires Valid()
      ensures ok <==> LoadOk(Now(), res, ptr)
    {
      hide Inverse, Graded, Partition, Allocated, Connected;
      if res == ptr {
        return false;
      }
      if res !in nodeMap || ptr !in nodeMap {
        return true;
      }
      var linked := CheckNodeConnectivity(nodeMap[res], nodeMap[ptr]);
      return !linked || (nodeMap[ptr] in to && to[nodeMap[ptr]] == nodeMap[res]);
    }

    /** A whole run, up to the first load of a value that is linked to its pointer otherwise than as
        its target. Components stay paths throughout, every alias fact once established holds to the
        end, and so does, when TBAA has blocked no merge, what each single instruction asks for.
        Loads into values not named before never end it. */
    method Run(cs: seq<Command>) returns (done: nat)
      requires Valid()
      modifies this
      ensures done <= |cs| && Valid() && Counted() && KeepsAliases(old(Now()), Now())
      ensures done < |cs| ==> cs[done].Load? && !LoadOk(Now(), cs[done].res, cs[done].ptr)
      ensures old(LoadsAreFresh(cs, nodeMap.Keys)) ==> done == |cs|
      ensures blocked == old(blocked) ==> Keeps(old(Now()), Now()) && forall i :: 0 <= i < done ==> Holds(Now(), cs[i])
    {
      hide Inverse, Graded, Partition, Allocated, Keeps;
      hide KeepsAliases, Holds, Mentioned, Mentions, Admissible, LoadsAreFresh;
      hide LoadOk;
      ghost var g := Now();
      KeepsSame(g);
      done := 0;
      while done < |cs|
        invariant done <= |cs| && Valid() && Counted() && nodeMap.Keys <= g.node.Keys + Mentioned(cs[..done])
        invariant KeepsAliases(g, Now())
        invariant blocked == old(blocked) ==> Keeps(g, Now()) && forall j :: 0 <= j < done ==> Holds(Now(), cs[j])
      {
        ghost var before := Now();
        if LoadsAreFresh(cs, g.node.Keys) {
          FreshAt(cs, g.node.Keys, done, nodeMap.Keys);
        }
        if cs[done].Load? {
          var ok := LoadIsOk(cs[done].res, cs[done].ptr);
          if !ok {
            if LoadsAreFresh(cs, g.node.Keys) {
              FreshLoadIsOk(before, cs[done]);
            }
            return;
          }
        }
        MentionedNext(cs, done);
        Handle(cs[done]);
        KeepsTwice(g, before, Now());
        if blocked == old(blocked) {
          forall j | 0 <= j < done ensures Holds(Now(), cs[j]) {
            KeepsHolding(before, Now(), cs[j]);
          }
        }
        done := done + 1;
      }
    }
  }

  /** One node, without an edge. */
  lemma LoadMakesALoop(n: Node)
    ensures Connected(map[], map[], n, n) && !Paths(map[n := n])
  {
    ConnectedToSelf(map[], map[], n);
    LoadKeepsPathsIff(map[], map[], (x: Node) => 0, n, n);
  }

  /** Every walk down a linked list has such a load. The loop variable `p` is a PHI of `head` and of
      `next`, which the loop loads through `p`; all three are in one node by then, and the load makes
      it point to itself. */
  method WalkAList(head: Value, p: Value, next: Value) returns (c: AliasContext)
    requires p != next && head != next
    ensures fresh(c) && c.Valid() && c.to == map[] && Aliased(c.Now(), p, next)
    ensures !LoadOk(c.Now(), next, p) && !Paths(c.to[c.nodeMap[p] := c.nodeMap[next]])
  {
    hide Paths;
    c := new AliasContext(false, (a, b) => false);
    c.HandleMove(p, head);
    c.HandleMove(p, next);
    LoadMakesALoop(c.nodeMap[p]);
    LinkedToSelf(c.Now(), next, p);
  }
}
