/** Topological sorting of the basic blocks of a function: topSort of src/lib/CallGraph/UnrollLoop.cc.
    It takes blocks without predecessors away until none is left, or until there is a loop. */
module TopSort {

  /** The successors of each block, numbered in the order of the map's keys. */
  type Graph = seq<seq<nat>>

  predicate WellFormed(g: Graph) {
    forall b, k :: 0 <= b < |g| && 0 <= k < |g[b]| ==> g[b][k] < |g|
  }

  /** An edge from one block to another; a block that branches to itself does not count. */
  predicate Edge(g: Graph, a: int, b: int) { 0 <= a < |g| && a != b && b >= 0 && b in g[a] }

  /** A way of `n` edges from `a` to `b`. */
  predicate Walk(g: Graph, way: seq<int>, a: int, b: int) {
    && |way| > 1 && way[0] == a && way[|way| - 1] == b
    && forall i :: 0 <= i < |way| - 1 ==> Edge(g, way[i], way[i + 1])
  }

  /** Some block can be reached again from itself. */
  ghost predicate HasLoop(g: Graph) { exists b, way :: Walk(g, way, b, b) }

  /** How many of the edges to `v` come out of the first `n` blocks, those in `blocks`. */
  function Degree(g: Graph, blocks: set<nat>, v: nat, n: nat): nat
    requires n <= |g|
  {
    if n == 0 then 0
    else Degree(g, blocks, v, n - 1) + if n - 1 in blocks && n - 1 != v then multiset(g[n - 1])[v] else 0
  }

  lemma {:induction false} DegreeWithout(g: Graph, blocks: set<nat>, c: nat, v: nat, n: nat)
    requires n <= |g| && c in blocks && c != v && c < |g|
    ensures Degree(g, blocks, v, n) == Degree(g, blocks - {c}, v, n) + if c < n then multiset(g[c])[v] else 0
  {
    if n > 0 { DegreeWithout(g, blocks, c, v, n - 1); }
  }

  lemma {:induction false} DegreeWithEdge(g: Graph, blocks: set<nat>, a: nat, v: nat, n: nat)
    requires a < n <= |g| && a in blocks && Edge(g, a, v)
    ensures Degree(g, blocks, v, n) > 0
  {
    if a < n - 1 { DegreeWithEdge(g, blocks, a, v, n - 1); } else { assert multiset(g[a])[v] > 0; }
  }

  lemma {:induction false} DegreeHasEdge(g: Graph, blocks: set<nat>, v: nat, n: nat) returns (a: nat)
    requires n <= |g| && Degree(g, blocks, v, n) > 0
    ensures a < n && a in blocks && Edge(g, a, v)
  {
    if n - 1 in blocks && n - 1 != v && multiset(g[n - 1])[v] > 0 {
      a := n - 1;
      assert v in multiset(g[a]);
    } else {
      a := DegreeHasEdge(g, blocks, v, n - 1);
    }
  }

  lemma TakeOne(s: seq<nat>, k: nat, v: nat)
    requires k < |s|
    ensures multiset(s[..k + 1])[v] == multiset(s[..k])[v] + if s[k] == v then 1 else 0
    ensures multiset(s[..k + 1])[v] <= multiset(s)[v]
  {
    assert s[..k + 1] == s[..k] + [s[k]];
    assert s == s[..k + 1] + s[k + 1..];
  }

  /** The map holds the blocks that are left, each with the edges it still has coming in. */
  ghost predicate Counts(g: Graph, degree: map<nat, int>) {
    && (forall v :: v in degree ==> v < |g|)
    && (forall v :: v in degree ==> degree[v] == Degree(g, degree.Keys, v, |g|))
    && (forall a, v :: a in degree.Keys && Edge(g, a, v) ==> v in degree.Keys)
  }

  /** `degree[v]++` and `degree[v]--` on the C++ map, which makes the entry if there is none. */
  function Bump(degree: map<nat, int>, v: nat, d: int): map<nat, int> {
    degree[v := (if v in degree then degree[v] else 0) + d]
  }

  /** Count the edges out of block `b`. */
  method CountEdges(g: Graph, degree: map<nat, int>, b: nat) returns (more: map<nat, int>)
    requires WellFormed(g) && b < |g| && forall v: nat :: v < |g| ==> v in degree.Keys
    requires forall v :: v in degree ==> degree[v] == Degree(g, degree.Keys, v, b)
    ensures more.Keys == degree.Keys
    ensures forall v :: v in more ==> more[v] == Degree(g, more.Keys, v, b + 1)
  {
    more := degree;
    for k := 0 to |g[b]|
      invariant more.Keys == degree.Keys
      invariant forall v :: v in more ==> more[v] == degree[v] + if v == b then 0 else multiset(g[b][..k])[v]
    {
      forall v: nat ensures multiset(g[b][..k + 1])[v] == multiset(g[b][..k])[v] + if g[b][k] == v then 1 else 0 {
        TakeOne(g[b], k, v);
      }
      if g[b][k] != b { more := Bump(more, g[b][k], 1); }
    }
    assert g[b][..|g[b]|] == g[b];
  }

  method InDegrees(g: Graph) returns (degree: map<nat, int>)
    requires WellFormed(g)
    ensures Counts(g, degree) && forall v: nat :: v < |g| ==> v in degree.Keys
  {
    degree := map[];
    for b := 0 to |g|
      invariant forall v: nat :: v in degree.Keys <==> v < b
      invariant forall v :: v in degree ==> degree[v] == 0
    {
      degree := degree[b := 0];
    }
    for b := 0 to |g|
      invariant forall v: nat :: v in degree.Keys <==> v < |g|
      invariant forall v :: v in degree ==> degree[v] == Degree(g, degree.Keys, v, b)
    {
      degree := CountEdges(g, degree, b);
    }
  }

  /** Takes block `c`, which has no edge coming in, out of the map. No decrement finds its entry
      gone: the key set loses `c` and nothing else. */
  method TakeOut(g: Graph, degree: map<nat, int>, c: nat) returns (rest: map<nat, int>)
    requires WellFormed(g) && Counts(g, degree) && c in degree && degree[c] == 0
    ensures Counts(g, rest) && rest.Keys == degree.Keys - {c}
    ensures forall a :: a in degree ==> !Edge(g, a, c)
  {
    rest := degree;
    for k := 0 to |g[c]|
      invariant rest.Keys == degree.Keys && rest[c] == 0
      invariant forall v :: v in rest && v != c ==> rest[v] == degree[v] - multiset(g[c][..k])[v]
    {
      forall v: nat ensures multiset(g[c][..k + 1])[v] == multiset(g[c][..k])[v] + if g[c][k] == v then 1 else 0 {
        TakeOne(g[c], k, v);
      }
      if g[c][k] != c {
        assert Edge(g, c, g[c][k]);
        rest := Bump(rest, g[c][k], -1);
      }
    }
    assert g[c][..|g[c]|] == g[c];
    rest := rest - {c};
    forall a | a in degree ensures !Edge(g, a, c) {
      if Edge(g, a, c) { DegreeWithEdge(g, degree.Keys, a, c, |g|); }
    }
    forall v | v in rest ensures rest[v] == Degree(g, rest.Keys, v, |g|) {
      DegreeWithout(g, degree.Keys, c, v, |g|);
      assert rest.Keys == degree.Keys - {c};
    }
  }

  /** Every block left has an edge from another that is left, so going back along them comes round. */
  lemma LoopIsThere(g: Graph, degree: map<nat, int>)
    requires WellFormed(g) && Counts(g, degree) && degree.Keys != {}
    requires forall v :: v in degree ==> degree[v] != 0
    ensures HasLoop(g)
  {
    var way := WayBack(g, degree, |degree.Keys|);
    var i, j := Twice(way, degree.Keys);
    var round := way[i..j + 1];
    assert Walk(g, round, way[i], way[i]);
  }

  lemma {:induction false} WayBack(g: Graph, degree: map<nat, int>, n: nat) returns (way: seq<nat>)
    requires Counts(g, degree) && degree.Keys != {} && forall v :: v in degree ==> degree[v] != 0
    ensures |way| == n + 1 && (forall i :: 0 <= i <= n ==> way[i] in degree.Keys)
    ensures forall i :: 0 <= i < n ==> Edge(g, way[i], way[i + 1])
  {
    if n == 0 {
      var v :| v in degree.Keys;
      way := [v];
    } else {
      var rest := WayBack(g, degree, n - 1);
      var a := DegreeHasEdge(g, degree.Keys, rest[0], |g|);
      way := [a] + rest;
    }
  }

  /** More places than values: one value comes twice. */
  lemma {:induction false} Twice(s: seq<nat>, values: set<nat>) returns (i: nat, j: nat)
    requires |s| > |values| && forall k :: 0 <= k < |s| ==> s[k] in values
    ensures i < j < |s| && s[i] == s[j]
  {
    var last := |s| - 1;
    if k :| 0 <= k < last && s[k] == s[last] {
      i, j := k, last;
    } else {
      i, j := Twice(s[..last], values - {s[last]});
    }
  }

  /** Blocks taken out one after the other, none before a block with an edge to it, have no loop. */
  lemma NoLoop(g: Graph, when: map<int, int>)
    requires WellFormed(g) && forall b :: 0 <= b < |g| ==> b in when
    requires forall a, b :: Edge(g, a, b) && b in when ==> a in when && when[a] < when[b]
    ensures !HasLoop(g)
  {
    forall b, way ensures !Walk(g, way, b, b) {
      if Walk(g, way, b, b) { TimeRuns(g, when, way, |way| - 1); }
    }
  }

  lemma {:induction false} TimeRuns(g: Graph, when: map<int, int>, way: seq<int>, k: nat)
    requires WellFormed(g) && (forall b :: 0 <= b < |g| ==> b in when)
    requires forall a, b :: Edge(g, a, b) && b in when ==> a in when && when[a] < when[b]
    requires 1 <= k < |way| && forall i :: 0 <= i < |way| - 1 ==> Edge(g, way[i], way[i + 1])
    ensures way[0] in when && way[k] in when && when[way[0]] < when[way[k]]
  {
    assert Edge(g, way[k - 1], way[k - 1 + 1]);
    if k > 1 { TimeRuns(g, when, way, k - 1); }
  }

  /** topSort: true exactly when no block of the function can be reached again from itself. */
  method Sort(g: Graph) returns (ok: bool)
    requires WellFormed(g)
    ensures ok <==> !HasLoop(g)
  {
    var degree := InDegrees(g);
    ghost var when: map<int, int> := map[];
    ghost var time := 0;
    while degree.Keys != {}
      invariant Counts(g, degree)
      invariant forall v: nat :: v < |g| ==> (v in degree.Keys <==> v !in when)
      invariant forall v :: v in when ==> when[v] < time
      invariant forall a, b :: Edge(g, a, b) && b in when ==> a in when && when[a] < when[b]
      decreases |degree.Keys|
    {
      var c := 0;
      while c < |g| && !(c in degree && degree[c] == 0)
        invariant c <= |g| && forall v :: v in degree && v < c ==> degree[v] != 0
      {
        c := c + 1;
      }
      if c == |g| {
        LoopIsThere(g, degree);
        return false;
      }
      var rest := TakeOut(g, degree, c);
      when := when[c := time];
      time := time + 1;
      degree := rest;
    }
    NoLoop(g, when);
    return true;
  }
}
