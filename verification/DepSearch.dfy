/** The breadth-first search of tests/locking/lockdep.c as a function on values, with what its result
    means: a match lies at the end of a strong walk, and no match in a graph without dependencies that
    are only recursive means that nothing that can be reached matches. */
module DepSearch {

  import opened LockGraph

  datatype BfsResult = InvalidNode | QueueFull | Match | NoMatch

  type Parents = map<Ref, Ref>

  type Flags = map<Ref, bool>

  /** What a search is asked: the lists it follows, the class it starts from and whether that is held
      by a recursive reader only, what it looks for, what it skips, and the size of its queue. */
  datatype Query = Query(g: Lists, root: int, xr: bool, hit: (int, bool) -> bool, skip: int -> bool, size: nat)

  /** Classes accessed, the fields of the entries, the queue, and the entry last looked at. */
  datatype Search = Search(seen: set<int>, parent: Parents, onlyXr: Flags, queue: seq<Ref>, cur: Option<Ref>)

  datatype Ended = Ended(result: BfsResult, s: Search)

  datatype Round = Next(s: Search) | Stop(end: Ended)

  // ---------------------------------------------------------------------------
  // The search as a function
  // ---------------------------------------------------------------------------

  /** Classes are numbers below the number of lists, or -1. */
  ghost predicate Formed(g: Lists) {
    forall c, i :: 0 <= c < |g| && 0 <= i < |g[c]| ==> -1 <= g[c][i].cls < |g|
  }

  /** The sibling after `r`, if any. */
  function NextSibling(g: Lists, r: Option<Ref>): Option<Ref> {
    if r.Some? && r.value.Entry? && Exists(g, Entry(r.value.owner, r.value.index + 1))
    then Some(Entry(r.value.owner, r.value.index + 1))
    else None
  }

  function SiblingsLeft(g: Lists, r: Option<Ref>): nat {
    if r.Some? && r.value.Entry? && Exists(g, r.value) then |g[r.value.owner]| - r.value.index else 0
  }

  /** Among siblings there is always one less left. */
  lemma SiblingIsNearer(g: Lists, r: Option<Ref>)
    requires NextSibling(g, r).Some?
    ensures SiblingsLeft(g, NextSibling(g, r)) < SiblingsLeft(g, r)
  {
  }

  function FirstOf(g: Lists, c: int): seq<Ref>
    requires 0 <= c < |g|
  {
    if |g[c]| > 0 then [Entry(c, 0)] else []
  }

  /** The first `n` entries of class `c` get `r` as their parent. */
  function AdoptBy(parent: Parents, c: nat, n: nat, r: Ref): Parents {
    if n == 0 then parent else AdoptBy(parent, c, n - 1, r)[Entry(c, n - 1) := r]
  }

  lemma {:induction false} AdoptVisits(parent: Parents, c: nat, n: nat, r: Ref)
    ensures var parent' := AdoptBy(parent, c, n, r);
            && (forall i :: 0 <= i < n ==> Entry(c, i) in parent' && parent'[Entry(c, i)] == r)
            && forall x :: x in parent && !(x.Entry? && x.owner == c) ==> x in parent' && parent'[x] == parent[x]
  {
    if n > 0 {
      AdoptVisits(parent, c, n - 1, r);
    }
  }

  /** What is left of the kinds of `r` after its parent. */
  function DepLeft(g: Lists, s: Search, r: Ref): set<Kind> {
    if r in s.parent && s.parent[r] in s.onlyXr then Mask(DepOf(g, r), s.onlyXr[s.parent[r]]) else {}
  }

  /** The class of an entry, or -1. */
  function ClassAt(q: Query, r: Ref): int {
    if Exists(q.g, r) then ClassOf(q.g, q.root, r) else -1
  }

  predicate IsClass(c: int, n: nat) { 0 <= c < n }

  /** One round, on entry `r`. */
  function Turn(q: Query, s: Search, r: Ref): Round {
    var c := ClassAt(q, r);
    if !IsClass(c, |q.g|) then Stop(Ended(InvalidNode, s))
    else if c in s.seen then Next(s.(cur := Some(r)))
    else
      var s1 := s.(seen := s.seen + {c}, cur := Some(r));
      if r.Entry? && DepLeft(q.g, s, r) == {} then Next(s1)
      else
        Judge(q, s1, r, c, if r.Entry? then IsOnlyR(DepLeft(q.g, s, r)) else q.xr)
  }

  /** OnlyR, computed. */
  predicate IsOnlyR(dep: set<Kind>) { Kind(true, true) !in dep && Kind(false, true) !in dep }

  /** Steps 3 and 4, for an entry let through with only_xr `mine`. */
  function Judge(q: Query, s: Search, r: Ref, c: int, mine: bool): Round
    requires IsClass(c, |q.g|)
  {
    var s1 := s.(onlyXr := s.onlyXr[r := mine]);
    if q.skip(c) then Next(s1)
    else if q.hit(c, mine) then Stop(Ended(Match, s1))
    else if |q.g[c]| > 0 && |s.queue| + 1 == q.size then Stop(Ended(QueueFull, s1))
    else Next(s1.(parent := AdoptBy(s.parent, c, |q.g[c]|, r), queue := s.queue + FirstOf(q.g, c)))
  }

  ghost function Classes(n: nat): set<int> {
    set c | 0 <= c < n && IsClass(c, n)
  }

  /** A round changes no more than `cur`, or marks a class. */
  lemma TurnMarks(q: Query, s: Search, r: Ref)
    requires Turn(q, s, r).Next?
    ensures var s' := Turn(q, s, r).s;
            && s'.cur == Some(r)
            && (s' == s.(cur := Some(r)) || Classes(|q.g|) - s'.seen < Classes(|q.g|) - s.seen)
  {
    var s', c := Turn(q, s, r).s, ClassAt(q, r);
    assert IsClass(c, |q.g|);
    if c !in s.seen {
      assert s'.seen == s.seen + {c};
      assert c in Classes(|q.g|) - s.seen && c !in Classes(|q.g|) - s'.seen;
    }
  }

  /** What comes next: a sibling of the entry last looked at, or else the front of the queue. */
  function Pick(g: Lists, s: Search): Option<Ref> {
    if NextSibling(g, s.cur).Some? then NextSibling(g, s.cur)
    else if s.queue == [] then None
    else Some(s.queue[0])
  }

  /** The state when it has been taken. */
  function Picked(g: Lists, s: Search): Search {
    if NextSibling(g, s.cur).Some? || s.queue == [] then s else s.(queue := s.queue[1..])
  }

  lemma PickIsNearer(g: Lists, s: Search)
    requires Pick(g, s).Some?
    ensures var s1 := Picked(g, s);
            && s1.(queue := s.queue) == s
            && (|s1.queue| < |s.queue| || (s1.queue == s.queue && SiblingsLeft(g, Pick(g, s)) < SiblingsLeft(g, s.cur)))
  {
    if NextSibling(g, s.cur).Some? {
      SiblingIsNearer(g, s.cur);
    }
  }

  /** The search from state `s` to its end. */
  ghost function Sweep(q: Query, s: Search): Ended
    decreases Classes(|q.g|) - s.seen, |s.queue|, SiblingsLeft(q.g, s.cur)
  {
    var next := Pick(q.g, s);
    if next.None? then Ended(NoMatch, s)
    else
      PickIsNearer(q.g, s);
      match Turn(q, Picked(q.g, s), next.value)
      case Stop(end) => end
      case Next(s') =>
        TurnMarks(q, Picked(q.g, s), next.value);
        Sweep(q, s')
  }

  lemma SweepIs(q: Query, s: Search)
    ensures Sweep(q, s) ==
            var next := Pick(q.g, s);
            if next.None? then Ended(NoMatch, s)
            else
              var round := Turn(q, Picked(q.g, s), next.value);
              if round.Stop? then round.end else Sweep(q, round.s)
  {
  }

  /** Where a search begins, whatever the fields of the entries were. */
  function Start(parent: Parents, onlyXr: Flags): Search {
    Search({}, parent, onlyXr, [Root], None)
  }

  // ---------------------------------------------------------------------------
  // What is known during a search
  // ---------------------------------------------------------------------------

  /** The history of a search: classes expanded and by which entry, and for each entry that was not
      filtered out the entries that lead to it. */
  datatype Trace = Trace(via: map<int, Ref>, route: map<Ref, seq<Ref>>)

  /** No dependency on another class is only recursive. */
  ghost predicate Firm(g: Lists) {
    forall c, i :: 0 <= c < |g| && 0 <= i < |g[c]| && g[c][i].cls != c ==> !OnlyR(g[c][i].dep)
  }

  /** An entry whose class is expanded, or the root. */
  ghost predicate Adopted(g: Lists, via: map<int, Ref>, r: Ref) {
    r.Root? || (Exists(g, r) && r.owner in via)
  }

  ghost predicate RouteOk(q: Query, s: Search, t: Trace, r: Ref)
    requires r in t.route
  {
    var es := t.route[r];
    && Adopted(q.g, t.via, r) && ClassAt(q, r) in s.seen
    && r in s.onlyXr && Walk(q.g, q.root, es) && XrAfter(q.g, q.xr, es) == Some(s.onlyXr[r])
    && (r.Root? <==> es == [])
    && (es != [] ==>
          && es[|es| - 1] == r && r in s.parent && s.parent[r] in t.route
          && t.route[s.parent[r]] == es[..|es| - 1])
  }

  ghost predicate ExpandedOk(q: Query, s: Search, t: Trace, c: int)
    requires c in t.via
  {
    && IsClass(c, |q.g|) && c in s.seen && t.via[c] in t.route
    && ClassAt(q, t.via[c]) == c
    && forall i :: 0 <= i < |q.g[c]| ==> Entry(c, i) in s.parent && s.parent[Entry(c, i)] == t.via[c]
  }

  /** What is known is right: every entry let through lies at the end of a strong walk, along the
      parent pointers. */
  ghost predicate Sound(q: Query, s: Search, t: Trace) {
    && (forall r :: r in t.route ==> RouteOk(q, s, t, r))
    && (forall c :: c in t.via ==> ExpandedOk(q, s, t, c))
  }

  /** Entry `j` of class `c` has been looked at, or will be: its first sibling is queued, or the
      search is at a sibling before it. */
  ghost predicate Covered(g: Lists, s: Search, from: Option<Ref>, c: int, j: int)
    requires 0 <= c < |g| && 0 <= j < |g[c]|
  {
    || g[c][j].cls in s.seen
    || Entry(c, 0) in s.queue
    || (from.Some? && from.value.Entry? && from.value.owner == c && from.value.index <= j)
  }

  /** Nothing is forgotten; `from` is the next sibling to look at. */
  ghost predicate Thorough(q: Query, s: Search, t: Trace, from: Option<Ref>) {
    && (q.root in s.seen || Root in s.queue || from == Some(Root))
    && (forall c, j :: c in t.via && 0 <= c < |q.g| && 0 <= j < |q.g[c]| ==> Covered(q.g, s, from, c, j))
    && (forall i :: 0 <= i < |s.queue| ==> Adopted(q.g, t.via, s.queue[i]))
    && (from.Some? ==> Adopted(q.g, t.via, from.value))
  }

  /** What was expanded did not match; and in a firm graph, from a non-recursive root, what was not
      expanded was skipped, and no flag is set. */
  ghost predicate Fruitless(q: Query, s: Search, t: Trace) {
    && (forall c :: c in t.via && t.via[c] in s.onlyXr ==> !q.hit(c, s.onlyXr[t.via[c]]))
    && (Firm(q.g) && !q.xr ==>
          && (forall c :: c in s.seen ==> c in t.via || q.skip(c))
          && forall r :: r in t.route ==> r in s.onlyXr && !s.onlyXr[r])
  }

  /** All that is known; `from` is the next entry to look at. */
  ghost predicate Searching(q: Query, s: Search, t: Trace, from: Option<Ref>) {
    Sound(q, s, t) && Thorough(q, s, t, from) && Fruitless(q, s, t)
  }

  /** Where every dependency on the way can be non-recursive, a walk is not filtered out. */
  lemma {:induction false} FirmWalk(g: Lists, es: seq<Ref>)
    requires forall j :: 0 <= j < |es| ==> !OnlyR(DepOf(g, es[j]))
    ensures XrAfter(g, false, es) == Some(false)
  {
    if es != [] {
      var n := |es| - 1;
      FirmWalk(g, es[..n]);
      assert !OnlyR(DepOf(g, es[n]));
    }
  }

  // ---------------------------------------------------------------------------
  // Steps of the search
  // ---------------------------------------------------------------------------

  lemma SearchStarts(q: Query, parent: Parents, onlyXr: Flags)
    ensures Searching(q, Start(parent, onlyXr), Trace(map[], map[]), NextSibling(q.g, None))
  {
  }

  /** The next entry is taken. */
  lemma SearchPicks(q: Query, s: Search, t: Trace)
    requires Searching(q, s, t, NextSibling(q.g, s.cur)) && Pick(q.g, s).Some?
    ensures Searching(q, Picked(q.g, s), t, Pick(q.g, s))
  {
    hide RouteOk, ExpandedOk;
    var s1, from := Picked(q.g, s), Pick(q.g, s);
    SoundQueue(q, s, s1, t);
    if NextSibling(q.g, s.cur).None? {
      assert s.queue == [s.queue[0]] + s1.queue;
      forall c, j | c in t.via && 0 <= c < |q.g| && 0 <= j < |q.g[c]| ensures Covered(q.g, s1, from, c, j) {
        assert Covered(q.g, s, None, c, j);
      }
    }
  }

  /** The queue and `cur` do not matter for what is known. */
  lemma SoundQueue(q: Query, s: Search, s': Search, t: Trace)
    requires Sound(q, s, t) && s'.seen == s.seen && s'.parent == s.parent && s'.onlyXr == s.onlyXr
    ensures Sound(q, s', t)
  {
    hide Walk, XrAfter, Adopted;
    forall r | r in t.route ensures RouteOk(q, s', t, r) {
      assert RouteOk(q, s, t, r);
    }
    forall c | c in t.via ensures ExpandedOk(q, s', t, c) {
      assert ExpandedOk(q, s, t, c);
    }
  }

  /** What is known about the entry looked at. */
  lemma SearchAt(q: Query, s: Search, t: Trace, r: Ref)
    requires Searching(q, s, t, Some(r))
    ensures Exists(q.g, r) && Adopted(q.g, t.via, r)
    ensures r.Entry? ==> r in s.parent && s.parent[r] in s.onlyXr && s.parent[r] in t.route && r.owner in s.seen
  {
    if r.Entry? {
      assert ExpandedOk(q, s, t, r.owner);
      assert RouteOk(q, s, t, s.parent[r]);
    }
  }

  /** The class was accessed before, or is now: go on with the next sibling. */
  lemma PassOver(q: Query, s: Search, s': Search, t: Trace, r: Ref)
    requires Thorough(q, s, t, Some(r)) && s'.seen >= s.seen && s'.queue == s.queue && ClassAt(q, r) in s'.seen
    requires Exists(q.g, r)
    ensures Thorough(q, s', t, NextSibling(q.g, Some(r)))
  {
    forall c, j | c in t.via && 0 <= c < |q.g| && 0 <= j < |q.g[c]|
      ensures Covered(q.g, s', NextSibling(q.g, Some(r)), c, j)
    {
      assert Covered(q.g, s, Some(r), c, j);
    }
  }

  /** Step 1: accessed before. */
  lemma SearchPasses(q: Query, s: Search, t: Trace, r: Ref)
    requires Searching(q, s, t, Some(r)) && Exists(q.g, r) && ClassAt(q, r) in s.seen
    ensures Searching(q, s.(cur := Some(r)), t, NextSibling(q.g, Some(r)))
  {
    hide Sound, Thorough;
    SoundQueue(q, s, s.(cur := Some(r)), t);
    PassOver(q, s, s.(cur := Some(r)), t, r);
  }

  lemma NotLetThroughYet(q: Query, s: Search, t: Trace, r: Ref)
    requires Sound(q, s, t) && ClassAt(q, r) !in s.seen
    ensures r !in t.route && ClassAt(q, r) !in t.via && forall c :: c in t.via ==> t.via[c] != r
  {
    hide Walk, XrAfter, Adopted;
    assert r in t.route ==> RouteOk(q, s, t, r);
    var d := ClassAt(q, r);
    assert d in t.via ==> ExpandedOk(q, s, t, d);
    forall c | c in t.via ensures t.via[c] != r {
      assert ExpandedOk(q, s, t, c);
    }
  }

  /** Marking a class, and the flag of an entry that was not let through. */
  lemma MarkedSound(q: Query, s: Search, s': Search, t: Trace, r: Ref)
    requires Sound(q, s, t) && s'.seen >= s.seen && s'.parent == s.parent && r !in t.route
    requires forall x :: x in s.onlyXr && x != r ==> x in s'.onlyXr && s'.onlyXr[x] == s.onlyXr[x]
    ensures Sound(q, s', t)
  {
    hide Walk, XrAfter, Adopted;
    forall x | x in t.route ensures RouteOk(q, s', t, x) {
      assert RouteOk(q, s, t, x);
    }
    forall d | d in t.via ensures ExpandedOk(q, s', t, d) {
      assert ExpandedOk(q, s, t, d);
    }
  }

  lemma FruitlessStays(q: Query, s: Search, s': Search, t: Trace, r: Ref)
    requires Fruitless(q, s, t) && r !in t.route && s'.seen == s.seen + {ClassAt(q, r)}
    requires forall c :: c in t.via ==> t.via[c] != r
    requires forall x :: x != r ==> (x in s'.onlyXr <==> x in s.onlyXr)
    requires forall x :: x in s.onlyXr && x != r ==> s'.onlyXr[x] == s.onlyXr[x]
    requires Firm(q.g) && !q.xr ==> q.skip(ClassAt(q, r))
    ensures Fruitless(q, s', t)
  {
    hide Firm, ClassAt;
  }

  /** In a firm graph nothing is dropped, and flags stay clear. */
  lemma FirmSurvives(q: Query, s: Search, t: Trace, r: Ref)
    requires Searching(q, s, t, Some(r)) && ClassAt(q, r) !in s.seen && r.Entry? && Firm(q.g) && !q.xr
    ensures !OnlyR(DepLeft(q.g, s, r))
  {
    hide Walk, XrAfter;
    SearchAt(q, s, t, r);
    assert !s.onlyXr[s.parent[r]];
    assert q.g[r.owner][r.index].cls != r.owner;
  }

  lemma OnlyRIs(dep: set<Kind>)
    ensures IsOnlyR(dep) == OnlyR(dep)
  {
  }

  /** Steps 2 and 3: no strong path, or to be skipped. */
  lemma SearchDrops(q: Query, s: Search, s': Search, t: Trace, r: Ref)
    requires Searching(q, s, t, Some(r)) && Exists(q.g, r) && ClassAt(q, r) !in s.seen
    requires q.skip(ClassAt(q, r)) || (r.Entry? && DepLeft(q.g, s, r) == {})
    requires s' == s.(seen := s.seen + {ClassAt(q, r)}, cur := Some(r), onlyXr := s'.onlyXr)
    requires s'.onlyXr == s.onlyXr || (r in s'.onlyXr && s'.onlyXr == s.onlyXr[r := s'.onlyXr[r]])
    ensures Searching(q, s', t, NextSibling(q.g, Some(r)))
  {
    hide Sound, Thorough, Fruitless, DepLeft, Firm;
    NotLetThroughYet(q, s, t, r);
    MarkedSound(q, s, s', t, r);
    PassOver(q, s, s', t, r);
    if Firm(q.g) && !q.xr && !q.skip(ClassAt(q, r)) {
      FirmSurvives(q, s, t, r);
    }
    FruitlessStays(q, s, s', t, r);
  }

  /** The entries that lead to `r`. */
  ghost function RouteTo(s: Search, t: Trace, r: Ref): seq<Ref> {
    if r.Entry? && r in s.parent && s.parent[r] in t.route then t.route[s.parent[r]] + [r] else []
  }

  /** `mine` is the only_xr that the search computes for `r`. */
  ghost predicate LetThrough(q: Query, s: Search, r: Ref, mine: bool) {
    if r.Root? then mine == q.xr else DepLeft(q.g, s, r) != {} && mine == OnlyR(DepLeft(q.g, s, r))
  }

  lemma RouteToIs(q: Query, s: Search, t: Trace, r: Ref, mine: bool)
    requires Sound(q, s, t) && Adopted(q.g, t.via, r) && LetThrough(q, s, r, mine)
    ensures var es := RouteTo(s, t, r);
            && Walk(q.g, q.root, es) && XrAfter(q.g, q.xr, es) == Some(mine) && (r.Root? <==> es == [])
            && (es != [] ==> es[|es| - 1] == r && s.parent[r] in t.route && t.route[s.parent[r]] == es[..|es| - 1])
  {
    if r.Entry? {
      assert ExpandedOk(q, s, t, r.owner);
      var p := s.parent[r];
      assert RouteOk(q, s, t, p);
      var es := RouteTo(s, t, r);
      assert es[..|es| - 1] == t.route[p];
    }
  }

  /** The history and the state when `r` is let through. */
  ghost function Routed(s: Search, t: Trace, r: Ref): Trace {
    t.(route := t.route[r := RouteTo(s, t, r)])
  }

  function Let(q: Query, s: Search, r: Ref, mine: bool): Search {
    s.(seen := s.seen + {ClassAt(q, r)}, onlyXr := s.onlyXr[r := mine], cur := Some(r))
  }

  lemma RouteNew(q: Query, s: Search, t: Trace, r: Ref, mine: bool)
    requires Sound(q, s, t) && Adopted(q.g, t.via, r) && LetThrough(q, s, r, mine) && r !in t.route
    ensures RouteOk(q, Let(q, s, r, mine), Routed(s, t, r), r)
  {
    hide Walk, XrAfter, Sound, LetThrough;
    RouteToIs(q, s, t, r, mine);
  }

  lemma RouteStays(q: Query, s: Search, t: Trace, r: Ref, mine: bool, x: Ref)
    requires x in t.route && x != r && RouteOk(q, s, t, x) && r !in t.route
    ensures RouteOk(q, Let(q, s, r, mine), Routed(s, t, r), x)
  {
    hide Walk, XrAfter, Adopted;
  }

  /** Step 3: let through. */
  lemma Accepted(q: Query, s: Search, t: Trace, r: Ref, mine: bool)
    requires Sound(q, s, t) && Adopted(q.g, t.via, r) && LetThrough(q, s, r, mine) && r !in t.route
    ensures Sound(q, Let(q, s, r, mine), Routed(s, t, r))
  {
    hide RouteOk, LetThrough, Adopted, RouteTo;
    var s', t' := Let(q, s, r, mine), Routed(s, t, r);
    forall x | x in t'.route ensures RouteOk(q, s', t', x) {
      if x != r {
        RouteStays(q, s, t, r, mine, x);
      } else {
        RouteNew(q, s, t, r, mine);
      }
    }
    forall d | d in t'.via ensures ExpandedOk(q, s', t', d) {
      assert ExpandedOk(q, s, t, d);
    }
  }

  /** Step 4: all entries of the class get `r` as their parent. */
  function Expanded(q: Query, s: Search, r: Ref): Search
    requires IsClass(ClassAt(q, r), |q.g|)
  {
    var c := ClassAt(q, r);
    s.(parent := AdoptBy(s.parent, c, |q.g[c]|, r), queue := s.queue + FirstOf(q.g, c))
  }

  lemma ExpandedSound(q: Query, s: Search, t: Trace, r: Ref)
    requires Sound(q, s, t) && r in t.route && IsClass(ClassAt(q, r), |q.g|) && ClassAt(q, r) !in t.via
    ensures Sound(q, Expanded(q, s, r), t.(via := t.via[ClassAt(q, r) := r]))
  {
    hide RouteOk, AdoptBy;
    var c := ClassAt(q, r);
    var s', t' := Expanded(q, s, r), t.(via := t.via[c := r]);
    AdoptVisits(s.parent, c, |q.g[c]|, r);
    forall x | x in t'.route ensures RouteOk(q, s', t', x) {
      RouteKept(q, s, t, r, x);
    }
    assert ClassAt(q, r) in s.seen by { RouteSeen(q, s, t, r); }
    forall d | d in t'.via ensures ExpandedOk(q, s', t', d) {
      if d != c {
        assert ExpandedOk(q, s, t, d);
      }
    }
  }

  lemma RouteSeen(q: Query, s: Search, t: Trace, r: Ref)
    requires r in t.route && RouteOk(q, s, t, r)
    ensures ClassAt(q, r) in s.seen
  {
  }

  lemma RouteKept(q: Query, s: Search, t: Trace, r: Ref, x: Ref)
    requires x in t.route && RouteOk(q, s, t, x) && IsClass(ClassAt(q, r), |q.g|) && ClassAt(q, r) !in t.via
    ensures RouteOk(q, Expanded(q, s, r), t.(via := t.via[ClassAt(q, r) := r]), x)
  {
    hide Walk, XrAfter, AdoptBy;
    AdoptVisits(s.parent, ClassAt(q, r), |q.g[ClassAt(q, r)]|, r);
  }

  lemma ExpandedThorough(q: Query, s: Search, s': Search, t: Trace, t': Trace, r: Ref)
    requires Thorough(q, s, t, Some(r)) && Exists(q.g, r) && IsClass(ClassAt(q, r), |q.g|)
    requires s'.seen == s.seen + {ClassAt(q, r)} && s'.queue == s.queue + FirstOf(q.g, ClassAt(q, r))
    requires t'.via == t.via[ClassAt(q, r) := r]
    ensures Thorough(q, s', t', NextSibling(q.g, Some(r)))
  {
    forall d, j | d in t'.via && 0 <= d < |q.g| && 0 <= j < |q.g[d]|
      ensures Covered(q.g, s', NextSibling(q.g, Some(r)), d, j)
    {
      if d in t.via {
        assert Covered(q.g, s, Some(r), d, j);
      } else {
        assert s'.queue[|s.queue|] == Entry(d, 0);
      }
    }
  }

  lemma ExpandedFruitless(q: Query, s: Search, s': Search, t: Trace, t': Trace, r: Ref, mine: bool)
    requires Searching(q, s, t, Some(r)) && LetThrough(q, s, r, mine) && r !in t.route
    requires ClassAt(q, r) !in s.seen && !q.hit(ClassAt(q, r), mine)
    requires s'.seen == s.seen + {ClassAt(q, r)} && s'.onlyXr == s.onlyXr[r := mine]
    requires t'.via == t.via[ClassAt(q, r) := r] && t'.route.Keys == t.route.Keys + {r}
    ensures Fruitless(q, s', t')
  {
    hide Thorough, Firm, Walk, XrAfter, DepLeft, Adopted;
    if Firm(q.g) && !q.xr && r.Entry? {
      FirmSurvives(q, s, t, r);
    }
    forall c | c in t'.via && t'.via[c] in s'.onlyXr ensures !q.hit(c, s'.onlyXr[t'.via[c]]) {
      if c != ClassAt(q, r) {
        assert ExpandedOk(q, s, t, c);
      }
    }
  }

  /** Step 4. */
  lemma SearchExpands(q: Query, s: Search, t: Trace, r: Ref, mine: bool)
    requires Searching(q, s, t, Some(r)) && IsClass(ClassAt(q, r), |q.g|) && ClassAt(q, r) !in s.seen
    requires LetThrough(q, s, r, mine) && !q.hit(ClassAt(q, r), mine)
    ensures Searching(q, Expanded(q, Let(q, s, r, mine), r), Routed(s, t, r).(via := t.via[ClassAt(q, r) := r]),
                      NextSibling(q.g, Some(r)))
  {
    hide Sound, LetThrough, Thorough, Fruitless, RouteTo, AdoptBy, FirstOf;
    SearchAt(q, s, t, r);
    NotLetThroughYet(q, s, t, r);
    Accepted(q, s, t, r, mine);
    var s1, t1 := Let(q, s, r, mine), Routed(s, t, r);
    ExpandedSound(q, s1, t1, r);
    var s', t' := Expanded(q, s1, r), t1.(via := t.via[ClassAt(q, r) := r]);
    ExpandedThorough(q, s, s', t, t', r);
    ExpandedFruitless(q, s, s', t, t', r, mine);
  }

  /** A round keeps all that is known. */
  lemma TurnKeeps(q: Query, s: Search, t: Trace, r: Ref) returns (t': Trace)
    requires Searching(q, s, t, Some(r)) && Turn(q, s, r).Next?
    ensures Searching(q, Turn(q, s, r).s, t', NextSibling(q.g, Some(r)))
  {
    hide Searching, DepLeft, FirstOf, AdoptBy;
    SearchAt(q, s, t, r);
    var c := ClassAt(q, r);
    t' := t;
    OnlyRIs(DepLeft(q.g, s, r));
    if c in s.seen {
      SearchPasses(q, s, t, r);
    } else if (r.Entry? && DepLeft(q.g, s, r) == {}) || q.skip(c) {
      SearchDrops(q, s, Turn(q, s, r).s, t, r);
    } else {
      var mine := if r.Entry? then OnlyR(DepLeft(q.g, s, r)) else q.xr;
      SearchExpands(q, s, t, r, mine);
      t' := Routed(s, t, r).(via := t.via[c := r]);
    }
  }

  // ---------------------------------------------------------------------------
  // What the result means
  // ---------------------------------------------------------------------------

  ghost predicate AlongParents(parent: Parents, es: seq<Ref>) {
    es == [] ||
    var n := |es| - 1;
    && es[n] in parent && parent[es[n]] == (if n == 0 then Root else es[n - 1])
    && AlongParents(parent, es[..n])
  }

  /** The target of a match: at the end of a strong walk from the root along the parent pointers,
      and only_xr tells exactly whether that walk can end in *N. */
  ghost predicate Witnessed(q: Query, parent: Parents, target: Ref, targetXr: bool, es: seq<Ref>) {
    && Walk(q.g, q.root, es) && AlongParents(parent, es)
    && (if target.Root? then es == [] else es != [] && es[|es| - 1] == target)
    && (CanEnd(q.g, q.xr, es, true) <==> !targetXr) && (CanEnd(q.g, q.xr, es, true) || CanEnd(q.g, q.xr, es, false))
  }

  lemma {:induction false} RouteAlongParents(q: Query, s: Search, t: Trace, r: Ref)
    requires Sound(q, s, t) && r in t.route
    ensures AlongParents(s.parent, t.route[r])
    decreases |t.route[r]|
  {
    hide Walk, XrAfter, Adopted, Sound, AlongParents, ClassAt;
    var es := t.route[r];
    RoutedOk(q, s, t, r);
    if es != [] {
      RouteAlongParents(q, s, t, s.parent[r]);
      RoutedOk(q, s, t, s.parent[r]);
      AlongOneMore(s.parent, es[..|es| - 1], r);
      assert es == es[..|es| - 1] + [r];
    } else {
      AlongNone(s.parent);
    }
  }

  lemma RoutedOk(q: Query, s: Search, t: Trace, r: Ref)
    requires Sound(q, s, t) && r in t.route
    ensures RouteOk(q, s, t, r)
  {
  }

  lemma AlongNone(parent: Parents)
    ensures AlongParents(parent, [])
  {
  }

  lemma AlongOneMore(parent: Parents, es: seq<Ref>, r: Ref)
    requires AlongParents(parent, es) && r in parent
    requires parent[r] == if |es| == 0 then Root else es[|es| - 1]
    ensures AlongParents(parent, es + [r])
  {
    assert (es + [r])[..|es|] == es;
  }

  lemma MatchIsWitnessed(q: Query, s: Search, t: Trace, r: Ref)
    requires Sound(q, s, t) && r in t.route && r in s.onlyXr
    ensures Witnessed(q, s.parent, r, s.onlyXr[r], t.route[r])
  {
    hide Sound;
    RoutedOk(q, s, t, r);
    RouteAlongParents(q, s, t, r);
    XrAfterIsExact(q.g, q.xr, t.route[r]);
  }

  /** A search that ended with a match found an entry that it looked for, by a strong walk. */
  ghost predicate Rightly(q: Query, s: Search) {
    && s.cur.Some? && var r := s.cur.value;
    && Exists(q.g, r) && r in s.onlyXr && q.hit(ClassAt(q, r), s.onlyXr[r])
    && exists es :: Witnessed(q, s.parent, r, s.onlyXr[r], es)
  }

  lemma TurnMatches(q: Query, s: Search, t: Trace, r: Ref)
    requires Searching(q, s, t, Some(r)) && Turn(q, s, r).Stop? && Turn(q, s, r).end.result.Match?
    ensures Rightly(q, Turn(q, s, r).end.s)
  {
    hide Searching, Sound, Witnessed, DepLeft, RouteTo;
    SearchAt(q, s, t, r);
    OnlyRIs(DepLeft(q.g, s, r));
    var mine := if r.Entry? then OnlyR(DepLeft(q.g, s, r)) else q.xr;
    var s', t' := Turn(q, s, r).end.s, Routed(s, t, r);
    SearchSound(q, s, t, r);
    NotLetThroughYet(q, s, t, r);
    Accepted(q, s, t, r, mine);
    assert s' == Let(q, s, r, mine);
    MatchIsWitnessed(q, s', t', r);
  }

  lemma SearchSound(q: Query, s: Search, t: Trace, r: Ref)
    requires Searching(q, s, t, Some(r))
    ensures Sound(q, s, t)
  {
  }

  /** With nothing left to look at, the accessed classes are closed under dependencies. */
  lemma NothingLeft(q: Query, s: Search, t: Trace, c: int)
    requires Searching(q, s, t, None) && s.queue == [] && Firm(q.g) && !q.xr && (forall d :: !q.skip(d))
    requires Reach(q.g, q.root, c)
    ensures !q.hit(c, false)
  {
    hide Firm, Walk, XrAfter, Adopted;
    forall x, y | x in s.seen && HasEdge(q.g, x, y) ensures y in s.seen {
      assert x in t.via;
      var i :| 0 <= i < |q.g[x]| && q.g[x][i].cls == y;
      assert Covered(q.g, s, None, x, i);
    }
    ClosedReach(q.g, s.seen, q.root, c);
    assert c in t.via && ExpandedOk(q, s, t, c);
    assert t.via[c] in s.onlyXr && !s.onlyXr[t.via[c]];
  }

  /** The whole search: a match is right, and no match is, in a firm graph from a non-recursive root. */
  lemma {:induction false} SweepIsRight(q: Query, s: Search, t: Trace)
    requires Searching(q, s, t, NextSibling(q.g, s.cur))
    ensures Sweep(q, s).result.Match? ==> Rightly(q, Sweep(q, s).s)
    ensures Sweep(q, s).result.NoMatch? && Firm(q.g) && !q.xr && (forall c :: !q.skip(c)) ==>
              forall c :: Reach(q.g, q.root, c) ==> !q.hit(c, false)
    decreases Classes(|q.g|) - s.seen, |s.queue|, SiblingsLeft(q.g, s.cur)
  {
    hide Searching, Turn, Rightly, Firm, Classes, Reach;
    var next := Pick(q.g, s);
    if next.None? {
      if Firm(q.g) && !q.xr && (forall c :: !q.skip(c)) {
        forall c | Reach(q.g, q.root, c) ensures !q.hit(c, false) {
          NothingLeft(q, s, t, c);
        }
      }
      return;
    }
    SearchPicks(q, s, t);
    PickIsNearer(q.g, s);
    var s1 := Picked(q.g, s);
    match Turn(q, s1, next.value)
    case Stop(end) =>
      if end.result.Match? {
        TurnMatches(q, s1, t, next.value);
      } else {
        TurnStops(q, s1, next.value);
      }
    case Next(s') =>
      var t' := TurnKeeps(q, s1, t, next.value);
      TurnMarks(q, s1, next.value);
      SweepIsRight(q, s', t');
  }

  /** A round that ends the search never does so for want of entries. */
  lemma TurnStops(q: Query, s: Search, r: Ref)
    requires Turn(q, s, r).Stop?
    ensures !Turn(q, s, r).end.result.NoMatch?
  {
  }
}
