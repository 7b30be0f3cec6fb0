/** Type-based alias analysis on struct-path tags: src/lib/utils/TBAATools.cc. Whether two access tags
    may alias is decided by walking up from each (base type, offset) pair through the fields that
    contain it, and looking for the other pair on the way.

    Metadata nodes are numbered so that operands refer to smaller numbers: the nodes are acyclic. */
module Tbaa {

  datatype Operand = Str | Num(n: nat) | Ref(node: nat)

  type Metadata = seq<seq<Operand>>

  datatype Option<T> = None | Some(value: T)

  /** A type descriptor and an offset in it. */
  datatype Place = Place(base: nat, offset: nat)

  ghost predicate Acyclic(md: Metadata) {
    forall i, k :: 0 <= i < |md| && 0 <= k < |md[i]| && md[i][k].Ref? ==> md[i][k].node < i
  }

  predicate IsRoot(ops: seq<Operand>) { ops == [] || (|ops| == 1 && ops[0].Str?) }

  predicate IsScalar(ops: seq<Operand>) { (|ops| == 2 || |ops| == 3) && ops[0].Str? && ops[1].Ref? }

  predicate IsStruct(ops: seq<Operand>) { |ops| > 1 && |ops| % 2 == 1 && ops[0].Str? }

  /** Operands `i` and `i + 1` are a field: a type and its offset. */
  predicate IsField(ops: seq<Operand>, i: int) { 0 <= i < |ops| - 1 && ops[i].Ref? && ops[i + 1].Num? }

  /** The last field before the first one past `offset`, from operand `i` on. */
  function FieldAt(ops: seq<Operand>, offset: nat, i: nat): (r: Option<nat>)
    ensures r.Some? ==> i <= r.value && r.value % 2 == i % 2 && IsField(ops, r.value) && ops[r.value + 1].n <= offset
    decreases |ops| - i
  {
    if i + 1 >= |ops| then None
    else if !IsField(ops, i) then FieldAt(ops, offset, i + 2)
    else if ops[i + 1].n > offset then None
    else
      var later := FieldAt(ops, offset, i + 2);
      if later.Some? then later else Some(i)
  }

  /** ImmediateParent as the code computes it. */
  function Parent(md: Metadata, x: Place): (r: Option<Place>)
    requires x.base < |md|
  {
    var ops := md[x.base];
    if IsScalar(ops) then (if x.offset == 0 then Some(Place(ops[1].node, 0)) else None)
    else if IsStruct(ops) then
      var f := FieldAt(ops, x.offset, 1);
      if f.Some? then Some(Place(ops[f.value].node, x.offset - ops[f.value + 1].n)) else None
    else None
  }

  lemma ParentIsSmaller(md: Metadata, x: Place)
    requires Acyclic(md) && x.base < |md|
    ensures Parent(md, x).Some? ==> Parent(md, x).value.base < x.base
  {
  }

  /** `y` is `n` immediate parents up from `x`. */
  ghost predicate ReachesIn(md: Metadata, x: Place, y: Place, n: nat)
    requires Acyclic(md) && x.base < |md|
    decreases n
  {
    if n == 0 then x == y
    else
      Parent(md, x).Some? && (ParentIsSmaller(md, x); ReachesIn(md, Parent(md, x).value, y, n - 1))
  }

  ghost predicate Reaches(md: Metadata, x: Place, y: Place)
    requires Acyclic(md) && x.base < |md|
  {
    exists n: nat :: ReachesIn(md, x, y, n)
  }

  predicate Before(ops: seq<Operand>, j: int, k: int) {
    IsField(ops, j) && IsField(ops, k) && ops[j + 1].n < ops[k + 1].n
  }

  /** The field at operand `k` does not lie past `offset`. */
  predicate Starts(ops: seq<Operand>, k: int, offset: nat) { IsField(ops, k) && ops[k + 1].n <= offset }

  /** In a struct whose fields are all well-formed and in order, the field chosen is the one with the
      greatest offset that does not lie past the offset looked for. */
  lemma {:induction false} FieldIsNearest(ops: seq<Operand>, offset: nat, i: nat)
    requires forall k :: i <= k < |ops| - 1 && k % 2 == i % 2 ==> IsField(ops, k)
    requires forall j, k :: i <= j < k < |ops| - 1 && j % 2 == k % 2 == i % 2 ==> Before(ops, j, k)
    ensures var f := FieldAt(ops, offset, i);
            && (f.None? ==> forall k :: i <= k < |ops| - 1 && k % 2 == i % 2 ==> !Starts(ops, k, offset))
            && (f.Some? ==> forall k :: i <= k < |ops| - 1 && k % 2 == i % 2 ==>
                              (Starts(ops, k, offset) <==> k <= f.value))
    decreases |ops| - i
  {
    if i + 1 < |ops| {
      FieldIsNearest(ops, offset, i + 2);
      assert i + 3 < |ops| ==> Before(ops, i, i + 2);
    }
  }

  /** immediateParent */
  method ImmediateParent(md: Metadata, x: Place) returns (r: Option<Place>)
    requires x.base < |md|
    ensures r == Parent(md, x)
  {
    var ops := md[x.base];
    if IsScalar(ops) {
      if x.offset != 0 { return None; }
      return Some(Place(ops[1].node, 0));
    }
    if IsStruct(ops) {
      var found: Option<nat> := None;
      var i := 1;
      while i + 1 < |ops|
        invariant 1 <= i <= |ops|
        invariant found.Some? ==> IsField(ops, found.value) && ops[found.value + 1].n <= x.offset
        invariant FieldAt(ops, x.offset, 1) ==
                  if FieldAt(ops, x.offset, i).Some? then FieldAt(ops, x.offset, i) else found
      {
        if IsField(ops, i) {
          if ops[i + 1].n > x.offset { break; }
          found := Some(i);
        }
        i := i + 2;
      }
      if found.None? { return None; }
      return Some(Place(ops[found.value].node, x.offset - ops[found.value + 1].n));
    }
    return None;
  }

  // ---------------------------------------------------------------------------
  // Tags
  // ---------------------------------------------------------------------------

  /** getBaseAndOffsetFromTag; None for a malformed tag. */
  function Target(ops: seq<Operand>): Option<Place> {
    if |ops| >= 3 && ops[0].Ref? && ops[2].Num? then Some(Place(ops[0].node, ops[2].n)) else None
  }

  /** The root above a chain of scalar descriptors, if there is one. */
  function RootOf(md: Metadata, n: nat): (r: Option<nat>)
    requires n < |md|
    ensures r.Some? ==> r.value < |md| && IsRoot(md[r.value])
  {
    if IsRoot(md[n]) then Some(n)
    else if IsScalar(md[n]) && md[n][1].node < n then RootOf(md, md[n][1].node)
    else None
  }

  /** getTBAARootFromTag */
  method RootFromTag(md: Metadata, tag: nat) returns (r: Option<nat>)
    requires Acyclic(md) && tag < |md|
    ensures r == TagRoot(md, tag)
  {
    if |md[tag]| < 2 || !md[tag][1].Ref? { return None; }
    var cur := md[tag][1].node;
    assert cur < tag;
    while !IsRoot(md[cur])
      invariant 0 <= cur < |md| && TagRoot(md, tag) == RootOf(md, cur)
      decreases cur
    {
      if !IsScalar(md[cur]) { return None; }
      assert md[cur][1].Ref? && md[cur][1].node < cur;
      cur := md[cur][1].node;
    }
    return Some(cur);
  }

  function TagRoot(md: Metadata, tag: nat): Option<nat>
    requires tag < |md|
  {
    if |md[tag]| >= 2 && md[tag][1].Ref? && md[tag][1].node < |md| then RootOf(md, md[tag][1].node) else None
  }

  /** Every place on the way up from `x`, `x` first. */
  method Ancestry(md: Metadata, x: Place) returns (chain: seq<Place>)
    requires Acyclic(md) && x.base < |md|
    ensures forall y :: y in chain <==> Reaches(md, x, y)
  {
    var cur := x;
    chain := [x];
    assert ReachesIn(md, x, x, 0);
    var parent := ImmediateParent(md, cur);
    while parent.Some?
      invariant cur.base < |md| && parent == Parent(md, cur) && |chain| > 0
      invariant ReachesIn(md, x, cur, |chain| - 1)
      invariant forall k :: 0 <= k < |chain| ==> ReachesIn(md, x, chain[k], k)
      decreases cur.base
    {
      ParentIsSmaller(md, cur);
      OneFurther(md, x, cur, |chain| - 1);
      cur := parent.value;
      chain := chain + [cur];
      parent := ImmediateParent(md, cur);
    }
    forall y | Reaches(md, x, y) ensures y in chain {
      var n: nat :| ReachesIn(md, x, y, n);
      if n < |chain| {
        ReachesOne(md, x, y, chain[n], n);
      } else {
        NoFurther(md, x, cur, |chain| - 1, y, n);
      }
    }
  }

  lemma {:induction false} OneFurther(md: Metadata, x: Place, y: Place, n: nat)
    requires Acyclic(md) && x.base < |md| && y.base < |md| && ReachesIn(md, x, y, n) && Parent(md, y).Some?
    ensures ReachesIn(md, x, Parent(md, y).value, n + 1)
    decreases n
  {
    ParentIsSmaller(md, x);
    if n > 0 {
      OneFurther(md, Parent(md, x).value, y, n - 1);
    } else {
      assert ReachesIn(md, Parent(md, x).value, Parent(md, y).value, 0);
    }
  }

  lemma {:induction false} ReachesOne(md: Metadata, x: Place, y: Place, z: Place, n: nat)
    requires Acyclic(md) && x.base < |md| && ReachesIn(md, x, y, n) && ReachesIn(md, x, z, n)
    ensures y == z
    decreases n
  {
    if n > 0 {
      ParentIsSmaller(md, x);
      ReachesOne(md, Parent(md, x).value, y, z, n - 1);
    }
  }

  lemma {:induction false} NoFurther(md: Metadata, x: Place, y: Place, n: nat, z: Place, m: nat)
    requires Acyclic(md) && x.base < |md| && y.base < |md| && Parent(md, y).None?
    requires ReachesIn(md, x, y, n) && ReachesIn(md, x, z, m)
    ensures m <= n
    decreases n
  {
    if n > 0 && m > 0 {
      ParentIsSmaller(md, x);
      NoFurther(md, Parent(md, x).value, y, n - 1, z, m - 1);
    }
  }

  const Null := -1

  /** What mayAliasByTBAA decides, step by step as the code does. */
  ghost predicate Verdict(md: Metadata, a: int, b: int)
    requires Acyclic(md) && a < |md| && b < |md|
  {
    if a < 0 || b < 0 || a == b then true
    else
      var x, y := Target(md[a]), Target(md[b]);
      if x.None? || y.None? then true
      else if x.value.base == y.value.base && x.value.offset != y.value.offset then false
      else
        var r, s := TagRoot(md, a), TagRoot(md, b);
        if r.Some? && s.Some? && r != s then false
        else if r.None? || s.None? then true
        else Reaches(md, y.value, x.value) || Reaches(md, x.value, y.value)
  }

  /** mayAliasByTBAA; a null tag is negative. */
  method MayAlias(md: Metadata, a: int, b: int) returns (may: bool)
    requires Acyclic(md) && a < |md| && b < |md|
    ensures may <==> Verdict(md, a, b)
  {
    if a < 0 || b < 0 || a == b { return true; }
    var x, y := Target(md[a]), Target(md[b]);
    if x.None? || y.None? { return true; }
    if x.value.base == y.value.base && x.value.offset != y.value.offset { return false; }
    var r := RootFromTag(md, a);
    var s := RootFromTag(md, b);
    if r.Some? && s.Some? && r != s { return false; }
    if r.None? || s.None? { return true; }
    var chainA := Ancestry(md, x.value);
    var chainB := Ancestry(md, y.value);
    return x.value in chainB || y.value in chainA;
  }

  /** shouldMergeByTBAA: a node without a tag never blocks a merge. */
  method ShouldMerge(md: Metadata, a: int, b: int) returns (merge: bool)
    requires Acyclic(md) && a < |md| && b < |md|
    ensures merge <==> a < 0 || b < 0 || Verdict(md, a, b)
  {
    if a < 0 || b < 0 { return true; }
    merge := MayAlias(md, a, b);
  }

  // ---------------------------------------------------------------------------
  // What the decision means
  // ---------------------------------------------------------------------------

  lemma {:induction false} ReachesDown(md: Metadata, x: Place, y: Place, n: nat)
    requires Acyclic(md) && x.base < |md| && ReachesIn(md, x, y, n)
    ensures y.base <= x.base && (n > 0 ==> y.base < x.base)
    decreases n
  {
    if n > 0 {
      ParentIsSmaller(md, x);
      ReachesDown(md, Parent(md, x).value, y, n - 1);
    }
  }

  /** Scalar descriptors, each the parent of the one before, up to the last node. */
  ghost predicate ScalarChain(md: Metadata, p: seq<nat>) {
    && |p| > 0 && p[|p| - 1] < |md|
    && forall k :: 0 <= k < |p| - 1 ==> p[k] < |md| && IsScalar(md[p[k]]) && md[p[k]][1] == Ref(p[k + 1])
  }

  /** A chain of any length leads from `n` to the root `r`. */
  ghost predicate ChainTo(md: Metadata, n: nat, r: nat) {
    exists p :: ScalarChain(md, p) && p[0] == n && p[|p| - 1] == r && r < |md| && IsRoot(md[r])
  }

  lemma {:induction false} ChainIsFollowed(md: Metadata, p: seq<nat>)
    requires Acyclic(md) && ScalarChain(md, p) && IsRoot(md[p[|p| - 1]])
    ensures p[0] < |md| && RootOf(md, p[0]) == Some(p[|p| - 1])
  {
    if |p| > 1 {
      var q := p[1..];
      forall k | 0 <= k < |q| - 1 ensures q[k] < |md| && IsScalar(md[q[k]]) && md[q[k]][1] == Ref(q[k + 1]) {
        assert q[k] == p[k + 1] && q[k + 1] == p[k + 2];
      }
      ChainIsFollowed(md, q);
      assert md[p[0]][1] == Ref(p[1]);
    }
  }

  lemma {:induction false} RootHasChain(md: Metadata, n: nat) returns (p: seq<nat>)
    requires n < |md| && RootOf(md, n).Some?
    ensures ScalarChain(md, p) && p[0] == n && p[|p| - 1] == RootOf(md, n).value
  {
    if IsRoot(md[n]) {
      p := [n];
    } else {
      var q := RootHasChain(md, md[n][1].node);
      p := [n] + q;
    }
  }

  /** The root of a descriptor is what a chain of scalar descriptors leads to, however long. */
  lemma RootIffChain(md: Metadata, n: nat, r: nat)
    requires Acyclic(md) && n < |md|
    ensures RootOf(md, n) == Some(r) <==> ChainTo(md, n, r)
  {
    if RootOf(md, n) == Some(r) {
      var p := RootHasChain(md, n);
    }
    if ChainTo(md, n, r) {
      var p :| ScalarChain(md, p) && p[0] == n && p[|p| - 1] == r && r < |md| && IsRoot(md[r]);
      ChainIsFollowed(md, p);
    }
  }

  /** A chain leads from the access type of the tag, its operand 1, to the root `r`. */
  ghost predicate Rooted(md: Metadata, tag: nat, r: nat)
    requires tag < |md|
  {
    |md[tag]| >= 2 && md[tag][1].Ref? && ChainTo(md, md[tag][1].node, r)
  }

  lemma TagRootIffRooted(md: Metadata, tag: nat)
    requires Acyclic(md) && tag < |md|
    ensures forall r: nat :: TagRoot(md, tag) == Some(r) <==> Rooted(md, tag, r)
    ensures TagRoot(md, tag) == None <==> forall r :: !Rooted(md, tag, r)
  {
    hide ChainTo, RootOf;
    forall r: nat ensures TagRoot(md, tag) == Some(r) <==> Rooted(md, tag, r) {
      if |md[tag]| >= 2 && md[tag][1].Ref? {
        RootIffChain(md, md[tag][1].node, r);
      }
    }
    if TagRoot(md, tag).Some? {
      assert Rooted(md, tag, TagRoot(md, tag).value);
    }
  }

  /** A tag that names a base type and an offset in it. */
  predicate WellFormed(ops: seq<Operand>) { |ops| >= 3 && ops[0].Ref? && ops[2].Num? }

  /** The whole decision in terms of the metadata. Null, equal and malformed tags may alias. Two
      offsets in one base type do not, and neither do tags with different roots. Without a root on
      one side they may, and with a common root reachability decides. */
  lemma VerdictByChains(md: Metadata, a: nat, b: nat)
    requires Acyclic(md) && a < |md| && b < |md| && a != b
    ensures Verdict(md, -1, b) && Verdict(md, a, -1) && Verdict(md, a, a)
    ensures !WellFormed(md[a]) || !WellFormed(md[b]) ==> Verdict(md, a, b)
    ensures WellFormed(md[a]) && WellFormed(md[b]) ==>
              var x, y := Place(md[a][0].node, md[a][2].n), Place(md[b][0].node, md[b][2].n);
              && x.base < |md| && y.base < |md|
              && (x.base == y.base && x.offset != y.offset ==> !Verdict(md, a, b))
              && ((exists r, s :: Rooted(md, a, r) && Rooted(md, b, s) && r != s) ==> !Verdict(md, a, b))
              && (x.base != y.base || x == y ==>
                    && ((forall r :: !Rooted(md, a, r)) || (forall r :: !Rooted(md, b, r)) ==> Verdict(md, a, b))
                    && ((exists r :: Rooted(md, a, r) && Rooted(md, b, r)) ==>
                          (Verdict(md, a, b) <==> Reaches(md, x, y) || Reaches(md, y, x))))
  {
    hide Rooted, Reaches, TagRoot;
    TagRootIffRooted(md, a);
    TagRootIffRooted(md, b);
  }

  /** The shortcut for equal base types is redundant: two offsets in one type never reach each other. */
  lemma SameBaseNeverReaches(md: Metadata, x: Place, y: Place)
    requires Acyclic(md) && x.base < |md| && x.base == y.base && x.offset != y.offset
    ensures !Reaches(md, x, y) && !Reaches(md, y, x)
  {
    forall n: nat ensures !ReachesIn(md, x, y, n) { if ReachesIn(md, x, y, n) { ReachesDown(md, x, y, n); } }
    forall n: nat ensures !ReachesIn(md, y, x, n) { if ReachesIn(md, y, x, n) { ReachesDown(md, y, x, n); } }
  }

  /** For well-formed tags with a common root, two accesses may alias exactly when one of the two
      (base, offset) pairs is reachable from the other. */
  lemma AliasIffReachable(md: Metadata, a: nat, b: nat)
    requires Acyclic(md) && a < |md| && b < |md|
    requires Target(md[a]).Some? && Target(md[b]).Some? && TagRoot(md, a).Some? && TagRoot(md, a) == TagRoot(md, b)
    ensures var x, y := Target(md[a]).value, Target(md[b]).value;
            Verdict(md, a, b) <==> Reaches(md, x, y) || Reaches(md, y, x)
  {
    var x, y := Target(md[a]).value, Target(md[b]).value;
    assert ReachesIn(md, x, x, 0);
    if x.base == y.base && x.offset != y.offset { SameBaseNeverReaches(md, x, y); }
  }

  /** It does not matter which of the two is asked first. */
  lemma VerdictIsSymmetric(md: Metadata, a: int, b: int)
    requires Acyclic(md) && a < |md| && b < |md|
    ensures Verdict(md, a, b) <==> Verdict(md, b, a)
  {
  }

  // ---------------------------------------------------------------------------
  // The rule of the LLVM Language Reference
  // ---------------------------------------------------------------------------

  /** ImmediateParent of the LLVM Language Reference, section "'tbaa' Metadata", subsection
      "Semantics": a node with two operands is scalar; any other is a struct with its fields. A scalar
      with three operands reads as a struct with its parent as only field, at offset zero. */
  function RuleParent(md: Metadata, x: Place): Option<Place>
    requires x.base < |md|
  {
    var ops := md[x.base];
    if IsScalar(ops) && |ops| == 2 then (if x.offset == 0 then Some(Place(ops[1].node, 0)) else None)
    else if IsStruct(ops) then
      var f := FieldAt(ops, x.offset, 1);
      if f.Some? then Some(Place(ops[f.value].node, x.offset - ops[f.value + 1].n)) else None
    else None
  }

  /** The step that the code gets wrong: a node with three operands, taken for a scalar, entered past
      its start or with its field past the start. */
  predicate Misread(md: Metadata, x: Place)
    requires x.base < |md|
  {
    var ops := md[x.base];
    && |ops| == 3 && IsScalar(ops)
    && (if x.offset == 0 then !(ops[2].Num? && ops[2].n == 0) else ops[2].Num? && ops[2].n <= x.offset)
  }

  /** A step of the code is a step of the rule except in a misread one-field struct. */
  lemma StepFollowsRuleIff(md: Metadata, x: Place)
    requires x.base < |md|
    ensures Parent(md, x) == RuleParent(md, x) <==> !Misread(md, x)
  {
    var ops := md[x.base];
    assert |ops| == 3 ==> FieldAt(ops, x.offset, 3).None?;
  }

  ghost predicate RuleReachesIn(md: Metadata, x: Place, y: Place, n: nat)
    requires Acyclic(md) && x.base < |md|
    decreases n
  {
    if n == 0 then x == y
    else RuleParent(md, x).Some? && RuleReachesIn(md, RuleParent(md, x).value, y, n - 1)
  }

  ghost predicate RuleReaches(md: Metadata, x: Place, y: Place)
    requires Acyclic(md) && x.base < |md|
  {
    exists n: nat :: RuleReachesIn(md, x, y, n)
  }

  /** The way of the code or of the rule from `x` to `y` has `n` steps, and one of them starts at a
      misread place. */
  ghost predicate Crosses(md: Metadata, x: Place, y: Place, n: nat)
    requires Acyclic(md) && x.base < |md|
    decreases n
  {
    && n > 0 && (ReachesIn(md, x, y, n) || RuleReachesIn(md, x, y, n))
    && (Misread(md, x) || (ParentIsSmaller(md, x); Parent(md, x).Some? && Crosses(md, Parent(md, x).value, y, n - 1)))
  }

  ghost predicate MisreadBetween(md: Metadata, x: Place, y: Place)
    requires Acyclic(md) && x.base < |md|
  {
    exists n: nat :: Crosses(md, x, y, n)
  }

  /** At a misread place one of the two goes on and the other stops. */
  lemma MisreadParts(md: Metadata, x: Place)
    requires x.base < |md| && Misread(md, x)
    ensures Parent(md, x).None? <==> RuleParent(md, x).Some?
  {
    var ops := md[x.base];
    assert FieldAt(ops, x.offset, 3).None?;
  }

  lemma {:induction false} RuleReachesDown(md: Metadata, x: Place, y: Place, n: nat)
    requires Acyclic(md) && x.base < |md| && RuleReachesIn(md, x, y, n)
    ensures y.base <= x.base && (n > 0 ==> y.base < x.base)
    decreases n
  {
    if n > 0 {
      RuleReachesDown(md, RuleParent(md, x).value, y, n - 1);
    }
  }

  /** The two ways agree, step number by step number, where they cross no misread place. */
  lemma {:induction false} WalkFollowsRule(md: Metadata, x: Place, y: Place, n: nat)
    requires Acyclic(md) && x.base < |md| && !Crosses(md, x, y, n)
    ensures ReachesIn(md, x, y, n) <==> RuleReachesIn(md, x, y, n)
    decreases n
  {
    if n > 0 {
      StepFollowsRuleIff(md, x);
      if !Misread(md, x) && Parent(md, x).Some? {
        ParentIsSmaller(md, x);
        WalkFollowsRule(md, Parent(md, x).value, y, n - 1);
      }
    }
  }

  /** Where they cross one, only one of them arrives. */
  lemma {:induction false} CrossingParts(md: Metadata, x: Place, y: Place, n: nat)
    requires Acyclic(md) && x.base < |md| && Crosses(md, x, y, n)
    ensures y.base < x.base && (Reaches(md, x, y) <==> !RuleReaches(md, x, y))
    decreases n
  {
    if ReachesIn(md, x, y, n) { ReachesDown(md, x, y, n); } else { RuleReachesDown(md, x, y, n); }
    StepFollowsRuleIff(md, x);
    if Misread(md, x) {
      MisreadParts(md, x);
    } else {
      ParentIsSmaller(md, x);
      CrossingParts(md, Parent(md, x).value, y, n - 1);
      FromParent(md, x, y);
    }
  }

  /** Away from `x` itself, what its parent reaches. */
  lemma FromParent(md: Metadata, x: Place, y: Place)
    requires Acyclic(md) && x.base < |md| && x != y && Parent(md, x).Some? && Parent(md, x) == RuleParent(md, x)
    ensures Parent(md, x).value.base < |md|
    ensures Reaches(md, x, y) <==> Reaches(md, Parent(md, x).value, y)
    ensures RuleReaches(md, x, y) <==> RuleReaches(md, Parent(md, x).value, y)
  {
    ParentIsSmaller(md, x);
    var p := Parent(md, x).value;
    if Reaches(md, x, y) {
      var n: nat :| ReachesIn(md, x, y, n);
      assert ReachesIn(md, p, y, n - 1);
    }
    if Reaches(md, p, y) {
      var n: nat :| ReachesIn(md, p, y, n);
      assert ReachesIn(md, x, y, n + 1);
    }
    if RuleReaches(md, x, y) {
      var n: nat :| RuleReachesIn(md, x, y, n);
      assert RuleReachesIn(md, p, y, n - 1);
    }
    if RuleReaches(md, p, y) {
      var n: nat :| RuleReachesIn(md, p, y, n);
      assert RuleReachesIn(md, x, y, n + 1);
    }
  }

  /** The code and the rule agree on who reaches whom exactly where no misread place is crossed. */
  lemma ReachesByRuleIff(md: Metadata, x: Place, y: Place)
    requires Acyclic(md) && x.base < |md|
    ensures (Reaches(md, x, y) <==> RuleReaches(md, x, y)) <==> !MisreadBetween(md, x, y)
    ensures MisreadBetween(md, x, y) ==> y.base < x.base
  {
    if MisreadBetween(md, x, y) {
      var n: nat :| Crosses(md, x, y, n);
      CrossingParts(md, x, y, n);
    } else {
      forall n: nat ensures ReachesIn(md, x, y, n) <==> RuleReachesIn(md, x, y, n) { WalkFollowsRule(md, x, y, n); }
    }
  }

  /** From a larger base nothing is reached. */
  lemma NeverUp(md: Metadata, x: Place, y: Place)
    requires Acyclic(md) && x.base < |md| && x.base < y.base
    ensures !Reaches(md, x, y) && !RuleReaches(md, x, y)
  {
    forall n: nat ensures !ReachesIn(md, x, y, n) && !RuleReachesIn(md, x, y, n) {
      if ReachesIn(md, x, y, n) { ReachesDown(md, x, y, n); }
      if RuleReachesIn(md, x, y, n) { RuleReachesDown(md, x, y, n); }
    }
  }

  /** For well-formed tags with a common root, the code decides by the rule exactly when no misread
      one-field struct lies between the two places. */
  lemma AliasFollowsRuleIff(md: Metadata, a: nat, b: nat)
    requires Acyclic(md) && a < |md| && b < |md|
    requires Target(md[a]).Some? && Target(md[b]).Some? && TagRoot(md, a).Some? && TagRoot(md, a) == TagRoot(md, b)
    ensures var x, y := Target(md[a]).value, Target(md[b]).value;
            && x.base < |md| && y.base < |md|
            && ((Verdict(md, a, b) <==> RuleReaches(md, x, y) || RuleReaches(md, y, x))
                <==> !MisreadBetween(md, x, y) && !MisreadBetween(md, y, x))
  {
    hide Verdict, Reaches, RuleReaches, MisreadBetween;
    var x, y := Target(md[a]).value, Target(md[b]).value;
    AliasIffReachable(md, a, b);
    ReachesByRuleIff(md, x, y);
    ReachesByRuleIff(md, y, x);
    if x.base < y.base { NeverUp(md, x, y); }
    if y.base < x.base { NeverUp(md, y, x); }
  }

  /** struct P { int a; int b; }; struct S { P p; }: accesses to s.p.b, through S and through P. */
  function OneField(): Metadata {
    [
      [Str],                                        // 0: root
      [Str, Ref(0)],                                // 1: int
      [Str, Ref(1), Num(0), Ref(1), Num(8)],        // 2: P
      [Str, Ref(2), Num(0)],                        // 3: S
      [Ref(3), Ref(1), Num(8)],                     // 4: tag (S, int, 8)
      [Ref(2), Ref(1), Num(8)]                      // 5: tag (P, int, 8)
    ]
  }

  /** The code separates them, although by the rule they alias. */
  lemma OneFieldStructIsMisread()
    ensures var md := OneField();
            && Acyclic(md) && TagRoot(md, 4) == TagRoot(md, 5) == Some(0)
            && !Verdict(md, 4, 5)
            && RuleReaches(md, Target(md[4]).value, Target(md[5]).value)
            && MisreadBetween(md, Target(md[4]).value, Target(md[5]).value)
  {
    var md := OneField();
    assert RootOf(md, 0) == Some(0);
    assert RootOf(md, 1) == Some(0);
    var x, y := Place(3, 8), Place(2, 8);
    assert Target(md[4]) == Some(x) && Target(md[5]) == Some(y);
    assert Parent(md, x).None?;
    assert FieldAt(md[3], 8, 3).None?;
    assert RuleParent(md, x) == Some(y);
    assert RuleReachesIn(md, y, y, 0);
    assert RuleReachesIn(md, x, y, 1);
    assert Crosses(md, x, y, 1);
    forall n: nat ensures !ReachesIn(md, x, y, n) {}
    forall n: nat ensures !ReachesIn(md, y, x, n) { if ReachesIn(md, y, x, n) { ReachesDown(md, y, x, n); } }
  }

  /** char under the root, int and long under char, as C front ends emit them. */
  function IntAndLong(): Metadata {
    [
      [Str],                                        // 0: root
      [Str, Ref(0), Num(0)],                        // 1: char
      [Str, Ref(1), Num(0)],                        // 2: int
      [Str, Ref(1), Num(0)],                        // 3: long
      [Ref(2), Ref(2), Num(0)],                     // 4: tag (int, int, 0)
      [Ref(3), Ref(3), Num(0)],                     // 5: tag (long, long, 0)
      [Ref(1), Ref(1), Num(0)]                      // 6: tag (char, char, 0)
    ]
  }

  lemma IntIsAcyclic()
    ensures Acyclic(IntAndLong())
  {
  }

  /** Tag `a` of descriptor `n`, which is `p[0]`. */
  lemma IsRooted(a: nat, p: seq<nat>)
    requires a < 7 && |IntAndLong()[a]| >= 2 && p != [] && IntAndLong()[a][1] == Ref(p[0])
    requires ScalarChain(IntAndLong(), p) && p[|p| - 1] == 0
    ensures Rooted(IntAndLong(), a, 0)
  {
    assert IsRoot(IntAndLong()[0]);
  }

  lemma CharChains()
    ensures ScalarChain(IntAndLong(), [2, 1, 0]) && ScalarChain(IntAndLong(), [3, 1, 0])
    ensures ScalarChain(IntAndLong(), [1, 0])
  {
  }

  lemma IntChains()
    ensures Rooted(IntAndLong(), 4, 0) && Rooted(IntAndLong(), 5, 0) && Rooted(IntAndLong(), 6, 0)
  {
    hide ScalarChain, Rooted;
    CharChains();
    IsRooted(4, [2, 1, 0]);
    IsRooted(5, [3, 1, 0]);
    IsRooted(6, [1, 0]);
  }

  lemma IntReaches()
    ensures var md, int_, long_, char_ := IntAndLong(), Place(2, 0), Place(3, 0), Place(1, 0);
            && Acyclic(md) && Reaches(md, int_, char_) && Reaches(md, long_, char_)
            && !Reaches(md, int_, long_) && !Reaches(md, long_, int_)
  {
    IntIsAcyclic();
    var md, int_, long_, char_ := IntAndLong(), Place(2, 0), Place(3, 0), Place(1, 0);
    assert Parent(md, int_) == Some(char_) && Parent(md, long_) == Some(char_);
    assert ReachesIn(md, char_, char_, 0);
    assert ReachesIn(md, int_, char_, 1) && ReachesIn(md, long_, char_, 1);
    forall n: nat ensures !ReachesIn(md, int_, long_, n) {
      if ReachesIn(md, int_, long_, n) { ReachesDown(md, int_, long_, n); }
    }
    forall n: nat ensures !ReachesIn(md, long_, int_, n) {
      if ReachesIn(md, long_, int_, n) { ReachesDown(md, char_, int_, n - 1); }
    }
  }

  /** int and long do not alias each other, and both alias char. */
  lemma IntIsNotLong()
    ensures Acyclic(IntAndLong())
    ensures Rooted(IntAndLong(), 4, 0) && Rooted(IntAndLong(), 5, 0) && Rooted(IntAndLong(), 6, 0)
    ensures !Verdict(IntAndLong(), 4, 5) && Verdict(IntAndLong(), 4, 6) && Verdict(IntAndLong(), 6, 5)
  {
    hide Rooted, Reaches, Verdict, Acyclic;
    IntIsAcyclic();
    IntChains();
    IntReaches();
    VerdictByChains(IntAndLong(), 4, 5);
    VerdictByChains(IntAndLong(), 4, 6);
    VerdictByChains(IntAndLong(), 6, 5);
  }
}
