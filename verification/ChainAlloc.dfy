/** The allocator lockdep keeps inside its chain_hlocks array: free blocks of 16-bit cells, listed
    in 16 buckets, with the list pointers packed into the free blocks themselves. */
module ChainAlloc {

  newtype u16 = x: int | 0 <= x < 0x1_0000

  const BUCKETS := 16
  const BLK_FLAG := 0x8000
  const LIST_END: u16 := 0xFFFF

  // ---------------------------------------------------------------------------
  // Pointers in two cells
  // ---------------------------------------------------------------------------

  /** `(next >> 16) | CHAIN_BLK_FLAG`, truncated to 16 bits; `>>` rounds down. */
  function High(next: int): u16 { (next / 0x1_0000 % BLK_FLAG + BLK_FLAG) as u16 }

  /** `(u16)next`. */
  function Low(next: int): u16 { (next % 0x1_0000) as u16 }

  /** chain_block_next on the two cells. */
  function Decode(high: u16, low: u16): int {
    if high == LIST_END then -1
    else (high as int % BLK_FLAG) * 0x1_0000 + low as int
  }

  /** A link comes back exactly when the array is short enough for the all-ones pattern to be free
      for the end of the list. */
  lemma LinkRoundTrip(next: int)
    requires -1 <= next < 0x8000_0000
    ensures Decode(High(next), Low(next)) == next <==> next < 0x7FFF_0000
    ensures High(next) >= BLK_FLAG as u16
  {
  }

  /** chain_block_size on the third and fourth cell. */
  function DecodeSize(high: u16, low: u16): int { high as int * 0x1_0000 + low as int }

  lemma SizeRoundTrip(size: int)
    requires 0 <= size < 0x8000_0000
    ensures DecodeSize((size / 0x1_0000) as u16, Low(size)) == size
  {
  }

  function SizeToBucket(size: int): int {
    if size > BUCKETS then 0 else size - 1
  }

  // ---------------------------------------------------------------------------
  // Lists in the cells
  // ---------------------------------------------------------------------------

  type Cells = seq<u16>

  function PutLink(c: Cells, o: int, next: int): (c': Cells)
    requires 0 <= o && o + 1 < |c|
    ensures |c'| == |c|
  {
    c[o := High(next)][o + 1 := Low(next)]
  }

  function PutSize(c: Cells, o: int, size: int): (c': Cells)
    requires 0 <= o && o + 3 < |c| && 0 <= size < 0x8000_0000
    ensures |c'| == |c|
  {
    c[o + 2 := (size / 0x1_0000) as u16][o + 3 := Low(size)]
  }

  /** The `i`-th offset of a list, or -1 past its end. */
  function At(list: seq<int>, i: nat): int { if i < |list| then list[i] else -1 }

  /** The block at `o` links to `next`. */
  predicate LinksTo(c: Cells, o: int, next: int) {
    0 <= o && o + 1 < |c| && Decode(c[o], c[o + 1]) == next
  }

  predicate HasSize(c: Cells, o: int, size: int) {
    0 <= o && o + 3 < |c| && DecodeSize(c[o + 2], c[o + 3]) == size
  }

  /** The cells spell out `list`, starting at `head`. */
  ghost predicate Spells(c: Cells, head: int, list: seq<int>) {
    head == At(list, 0) && forall i :: 0 <= i < |list| ==> LinksTo(c, list[i], At(list, i + 1))
  }

  // ---------------------------------------------------------------------------
  // Blocks
  // ---------------------------------------------------------------------------

  /** Offset to length. */
  type Blocks = map<int, nat>

  ghost predicate Apart(a: int, n: nat, b: int, m: nat) {
    a + n <= b || b + m <= a
  }

  /** The region is inside the array and touches no block. */
  ghost predicate Vacant(blocks: Blocks, len: nat, o: int, n: nat) {
    0 <= o && o + n <= len && forall b :: b in blocks ==> Apart(o, n, b, blocks[b])
  }

  /** Blocks are inside the array, hold at least a link, and do not overlap. */
  ghost predicate Laid(blocks: Blocks, len: nat) {
    && (forall b :: b in blocks ==> 0 <= b && 2 <= blocks[b] && b + blocks[b] <= len)
    && (forall a, b :: a in blocks && b in blocks && a != b ==> Apart(a, blocks[a], b, blocks[b]))
  }

  ghost function Total(m: Blocks): nat {
    if exists k :: k in m then
      var k :| k in m;
      m[k] + Total(m - {k})
    else
      0
  }

  lemma {:induction false} TotalWithout(m: Blocks, k: int)
    requires k in m
    ensures Total(m) == m[k] + Total(m - {k})
    decreases |m|
  {
    var j :| j in m && Total(m) == m[j] + Total(m - {j});
    if j != k {
      TotalWithout(m - {j}, k);
      TotalWithout(m - {k}, j);
      assert m - {j} - {k} == m - {k} - {j};
    }
  }

  lemma TotalWith(m: Blocks, k: int, n: nat)
    requires k !in m
    ensures Total(m[k := n]) == n + Total(m)
  {
    TotalWithout(m[k := n], k);
    assert m[k := n] - {k} == m;
  }

  lemma TotalAtLeast(m: Blocks, k: int)
    requires k in m
    ensures Total(m) >= m[k]
  {
    TotalWithout(m, k);
  }

  // ---------------------------------------------------------------------------
  // The pool
  // ---------------------------------------------------------------------------

  type Lists = seq<seq<int>>

  ghost predicate Distinct(list: seq<int>) {
    forall i, j :: 0 <= i < j < |list| ==> list[i] != list[j]
  }

  /** Every free block is listed in the bucket of its size, and nothing else is. */
  ghost predicate Binned(lists: Lists, free: Blocks) {
    && |lists| == BUCKETS
    && (forall b, i :: 0 <= b < BUCKETS && 0 <= i < |lists[b]| ==>
          lists[b][i] in free && SizeToBucket(free[lists[b][i]]) == b)
    && (forall o :: o in free ==> 2 <= free[o] && o in lists[SizeToBucket(free[o])])
  }

  /** Bucket 0 goes from large to small. */
  ghost predicate Descending(list: seq<int>, free: Blocks) {
    forall i, j :: 0 <= i < j < |list| && list[i] in free && list[j] in free ==> free[list[i]] >= free[list[j]]
  }

  /** The cells and the bucket heads spell out all the lists, with the sizes of bucket 0. */
  ghost predicate Spelled(c: Cells, heads: seq<int>, lists: Lists, free: Blocks) {
    && |heads| == |lists| == BUCKETS
    && (forall b :: 0 <= b < BUCKETS ==> Spells(c, heads[b], lists[b]) && Distinct(lists[b]))
    && (forall o :: o in lists[0] && o in free ==> HasSize(c, o, free[o]))
  }

  /** Free and allocated blocks share nothing. */
  ghost predicate Separate(free: Blocks, live: Blocks, len: nat) {
    && Laid(free, len) && Laid(live, len)
    && forall b :: b in live ==> b !in free && Vacant(free, len, b, live[b])
  }

  ghost predicate Shape(c: Cells, heads: seq<int>, lists: Lists, free: Blocks, live: Blocks) {
    && |c| < 0x7FFF_0000
    && Binned(lists, free) && Descending(lists[0], free) && Spelled(c, heads, lists, free)
    && Separate(free, live, |c|)
  }

  /** The contents of allocated blocks are the callers'. */
  ghost predicate Untouched(c: Cells, c': Cells, live: Blocks) {
    |c'| == |c| && forall b, p :: b in live && 0 <= b <= p < b + live[b] && p < |c| ==> c'[p] == c[p]
  }

  /** Cells outside the region are the same. */
  ghost predicate Elsewhere(c: Cells, c': Cells, o: int, n: nat) {
    |c'| == |c| && forall p :: 0 <= p < |c| && !(o <= p < o + n) ==> c'[p] == c[p]
  }

  lemma PutElsewhere(c: Cells, o: int, n: nat, next: int)
    requires 0 <= o && o + n <= |c| && 2 <= n && -1 <= next < 0x7FFF_0000
    ensures Elsewhere(c, PutLink(c, o, next), o, n) && LinksTo(PutLink(c, o, next), o, next)
  {
    LinkRoundTrip(next);
  }

  lemma PutSizeElsewhere(c: Cells, o: int, n: nat, next: int, size: int)
    requires 0 <= o && o + n <= |c| && 4 <= n && -1 <= next < 0x7FFF_0000 && 0 <= size < 0x8000_0000
    ensures var c' := PutSize(PutLink(c, o, next), o, size);
            Elsewhere(c, c', o, n) && LinksTo(c', o, next) && HasSize(c', o, size)
  {
    LinkRoundTrip(next);
    SizeRoundTrip(size);
  }

  lemma UntouchedElsewhere(c: Cells, c': Cells, live: Blocks, o: int, n: nat)
    requires Elsewhere(c, c', o, n) && Vacant(live, |c|, o, n)
    ensures Untouched(c, c', live)
  {
  }

  lemma UntouchedTwice(c: Cells, c': Cells, c'': Cells, live: Blocks)
    requires Untouched(c, c', live) && Untouched(c', c'', live)
    ensures Untouched(c, c'', live)
  {
  }

  // ---------------------------------------------------------------------------
  // Adding and removing a free block
  // ---------------------------------------------------------------------------

  ghost predicate Free(free: Blocks, live: Blocks, len: nat, o: int, n: nat) {
    Vacant(free, len, o, n) && Vacant(live, len, o, n)
  }

  lemma VacantIsNew(m: Blocks, len: nat, o: int, n: nat)
    requires Vacant(m, len, o, n) && Laid(m, len) && 2 <= n
    ensures o !in m
  {
  }

  lemma SeparateWith(free: Blocks, live: Blocks, len: nat, o: int, n: nat)
    requires Separate(free, live, len) && Free(free, live, len, o, n) && 2 <= n
    ensures o !in free && o !in live && Separate(free[o := n], live, len)
  {
    VacantIsNew(free, len, o, n);
    VacantIsNew(live, len, o, n);
  }

  function Insert(list: seq<int>, k: nat, o: int): (r: seq<int>)
    requires k <= |list|
    ensures |r| == |list| + 1
  {
    list[..k] + [o] + list[k..]
  }

  /** The headers of blocks other than `except` are the same. */
  ghost predicate SameHeaders(c: Cells, c': Cells, free: Blocks, except: int) {
    forall x :: x in free ==> (x != except ==> SameCells(c, c', x)) && (4 <= free[x] ==> SameCells(c, c', x + 2))
  }

  ghost predicate SameCells(c: Cells, c': Cells, x: int) {
    0 <= x && x + 1 < |c| == |c'| && c'[x] == c[x] && c'[x + 1] == c[x + 1]
  }

  ghost predicate Of(list: seq<int>, free: Blocks) {
    forall i :: 0 <= i < |list| ==> list[i] in free
  }

  lemma ElsewhereSameHeaders(c: Cells, c': Cells, free: Blocks, o: int, n: nat)
    requires Elsewhere(c, c', o, n) && Vacant(free, |c|, o, n) && Laid(free, |c|)
    ensures SameHeaders(c, c', free, -1)
  {
  }

  /** Writing only the link of a listed block keeps the other headers, and its size. */
  lemma RelinkSameHeaders(c: Cells, free: Blocks, x: int, next: int)
    requires Laid(free, |c|) && x in free
    ensures SameHeaders(c, PutLink(c, x, next), free, x)
  {
    var c' := PutLink(c, x, next);
    forall y | y in free ensures (y != x ==> SameCells(c, c', y)) && (4 <= free[y] ==> SameCells(c, c', y + 2)) {
      assert y != x ==> Apart(y, free[y], x, free[x]);
    }
  }

  lemma StillLinks(c: Cells, c': Cells, list: seq<int>, free: Blocks, except: int, i: nat)
    requires Of(list, free) && SameHeaders(c, c', free, except)
    requires i < |list| && list[i] != except && LinksTo(c, list[i], At(list, i + 1))
    ensures LinksTo(c', list[i], At(list, i + 1))
  {
    hide Decode;
    assert SameCells(c, c', list[i]);
  }

  lemma SpellsInsertAt(c: Cells, c': Cells, head: int, list: seq<int>, free: Blocks, k: nat, o: int, i: nat)
    requires Spells(c, head, list) && Distinct(list) && k <= |list| && Of(list, free)
    requires SameHeaders(c, c', free, if k > 0 then list[k - 1] else -1)
    requires LinksTo(c', o, At(list, k)) && (k > 0 ==> LinksTo(c', list[k - 1], o))
    requires i <= |list|
    ensures LinksTo(c', Insert(list, k, o)[i], At(Insert(list, k, o), i + 1))
  {
    hide Decode;
    if i < k - 1 {
      StillLinks(c, c', list, free, list[k - 1], i);
    } else if i > k {
      if k > 0 {
        StillLinks(c, c', list, free, list[k - 1], i - 1);
      } else {
        StillLinks(c, c', list, free, -1, i - 1);
      }
    }
  }

  lemma SpellsInsert(c: Cells, c': Cells, head: int, list: seq<int>, free: Blocks, k: nat, o: int)
    requires Spells(c, head, list) && Distinct(list) && k <= |list| && o !in list
    requires Of(list, free)
    requires SameHeaders(c, c', free, if k > 0 then list[k - 1] else -1)
    requires LinksTo(c', o, At(list, k)) && (k > 0 ==> LinksTo(c', list[k - 1], o))
    ensures Spells(c', if k == 0 then o else head, Insert(list, k, o)) && Distinct(Insert(list, k, o))
  {
    var r := Insert(list, k, o);
    forall i | 0 <= i < |r| ensures LinksTo(c', r[i], At(r, i + 1)) {
      SpellsInsertAt(c, c', head, list, free, k, o, i);
    }
  }

  lemma SpellsSame(c: Cells, c': Cells, head: int, list: seq<int>, free: Blocks, except: int)
    requires Spells(c, head, list) && Of(list, free) && except !in list
    requires SameHeaders(c, c', free, except)
    ensures Spells(c', head, list)
  {
    forall i | 0 <= i < |list| ensures LinksTo(c', list[i], At(list, i + 1)) {
      assert LinksTo(c, list[i], At(list, i + 1)) && list[i] in list;
    }
  }

  lemma BinnedInsert(lists: Lists, free: Blocks, k: nat, o: int, n: nat)
    requires Binned(lists, free) && o !in free && 2 <= n && k <= |lists[SizeToBucket(n)]|
    ensures var b := SizeToBucket(n); Binned(lists[b := Insert(lists[b], k, o)], free[o := n])
  {
    var b := SizeToBucket(n);
    var lists', free' := lists[b := Insert(lists[b], k, o)], free[o := n];
    forall x | x in free' ensures x in lists'[SizeToBucket(free'[x])] {
      if x != o && SizeToBucket(free[x]) == b {
        var i :| 0 <= i < |lists[b]| && lists[b][i] == x;
        assert lists'[b][if i < k then i else i + 1] == x;
      } else if x == o {
        assert lists'[b][k] == o;
      }
    }
  }

  /** `n` belongs in front of the `k`-th member: before its equals. */
  ghost predicate DescendingAt(list: seq<int>, free: Blocks, k: nat, n: nat) {
    && k <= |list| && Of(list, free)
    && (forall i :: 0 <= i < k ==> free[list[i]] > n) && (k < |list| ==> n >= free[list[k]])
  }

  lemma DescendingSame(list: seq<int>, free: Blocks, o: int, n: nat)
    requires Descending(list, free) && Of(list, free) && o !in free
    ensures Descending(list, free[o := n])
  {
  }

  lemma SpelledInsert(c: Cells, c': Cells, heads: seq<int>, lists: Lists, free: Blocks, k: nat, o: int, n: nat)
    requires Binned(lists, free) && Spelled(c, heads, lists, free) && o !in free && 2 <= n
    requires forall x :: x in free ==> 0 <= x
    requires var list := lists[SizeToBucket(n)];
             && k <= |list| && SameHeaders(c, c', free, if k > 0 then list[k - 1] else -1)
             && LinksTo(c', o, At(list, k)) && (k > 0 ==> LinksTo(c', list[k - 1], o))
    requires n > BUCKETS ==> HasSize(c', o, n)
    ensures var b := SizeToBucket(n);
            Spelled(c', heads[b := if k == 0 then o else heads[b]], lists[b := Insert(lists[b], k, o)], free[o := n])
  {
    hide LinksTo, SameHeaders, Spells, Distinct, Binned, HasSize, Of;
    var b := SizeToBucket(n);
    var heads', lists' := heads[b := if k == 0 then o else heads[b]], lists[b := Insert(lists[b], k, o)];
    var except := if k > 0 then lists[b][k - 1] else -1;
    forall d | 0 <= d < BUCKETS ensures Spells(c', heads'[d], lists'[d]) && Distinct(lists'[d]) {
      InOneList(lists, free, d);
      assert Spells(c, heads[d], lists[d]);
      if d == b {
        SpellsInsert(c, c', heads[b], lists[b], free, k, o);
      } else {
        assert except !in lists[d];
        SpellsSame(c, c', heads[d], lists[d], free, except);
      }
    }
    forall x | x in lists'[0] && x in free[o := n] ensures HasSize(c', x, free[o := n][x]) {
      LargeMember(lists, free, k, o, n, x);
      if x != o {
        SizeStays(c, c', free, except, x);
      }
    }
  }

  lemma InOneList(lists: Lists, free: Blocks, d: nat)
    requires Binned(lists, free) && d < BUCKETS && (forall x :: x in free ==> 0 <= x)
    ensures Of(lists[d], free) && -1 !in lists[d] && (forall x :: x !in free ==> x !in lists[d])
    ensures forall b, i :: 0 <= b < BUCKETS && b != d && 0 <= i < |lists[b]| ==> lists[b][i] !in lists[d]
  {
  }

  lemma LargeMember(lists: Lists, free: Blocks, k: nat, o: int, n: nat, x: int)
    requires Binned(lists, free) && 2 <= n && o !in free && k <= |lists[SizeToBucket(n)]|
    requires var b := SizeToBucket(n); x in lists[b := Insert(lists[b], k, o)][0]
    ensures x == o ==> n > BUCKETS
    ensures x != o ==> x in lists[0] && x in free && free[x] > BUCKETS
  {
  }

  lemma SizeStays(c: Cells, c': Cells, free: Blocks, except: int, x: int)
    requires SameHeaders(c, c', free, except) && x in free && 4 <= free[x] && HasSize(c, x, free[x])
    ensures HasSize(c', x, free[x])
  {
    hide DecodeSize;
    assert SameCells(c, c', x + 2);
  }

  lemma DescendingInsert(list: seq<int>, free: Blocks, k: nat, o: int, n: nat)
    requires Descending(list, free) && o !in free && DescendingAt(list, free, k, n)
    ensures Descending(Insert(list, k, o), free[o := n])
  {
  }

  lemma LaidFrom0(free: Blocks, len: nat)
    requires Laid(free, len)
    ensures forall x :: x in free ==> 0 <= x
  {
  }

  /** Writing the new block into its list, after the first `k` members, gives the pool with one
      more free block. `c'` is `c` with the header of the block, and of the one before it. */
  lemma Added(c: Cells, c': Cells, heads: seq<int>, lists: Lists, free: Blocks, live: Blocks, k: nat, o: int, n: nat)
    requires Shape(c, heads, lists, free, live) && Free(free, live, |c|, o, n) && 2 <= n && |c'| == |c|
    requires var list := lists[SizeToBucket(n)];
             && k <= |list| && SameHeaders(c, c', free, if k > 0 then list[k - 1] else -1)
             && LinksTo(c', o, At(list, k)) && (k > 0 ==> LinksTo(c', list[k - 1], o))
    requires n <= BUCKETS ==> k == 0
    requires n > BUCKETS ==> HasSize(c', o, n) && DescendingAt(lists[0], free, k, n)
    ensures var b := SizeToBucket(n);
            Shape(c', heads[b := if k == 0 then o else heads[b]],
                  lists[b := Insert(lists[b], k, o)], free[o := n], live)
  {
    hide Spells, SameHeaders, LinksTo, HasSize, DescendingAt, Distinct, Laid, Free, Vacant;
    SeparateWith(free, live, |c|, o, n);
    BinnedInsert(lists, free, k, o, n);
    LaidFrom0(free, |c|);
    SpelledInsert(c, c', heads, lists, free, k, o, n);
    if n > BUCKETS {
      assert Of(lists[0], free);
      DescendingInsert(lists[0], free, k, o, n);
    } else {
      DescendingSame(lists[0], free, o, n);
    }
  }

  /** Taking the first block off a list. */
  lemma Removed(c: Cells, heads: seq<int>, lists: Lists, free: Blocks, live: Blocks, b: nat)
    requires Shape(c, heads, lists, free, live) && b < BUCKETS && lists[b] != []
    ensures var o := lists[b][0];
            && Shape(c, heads[b := At(lists[b], 1)], lists[b := lists[b][1..]], free - {o}, live)
            && LinksTo(c, o, At(lists[b], 1)) && o in free && Free(free - {o}, live, |c|, o, free[o])
            && -1 <= At(lists[b], 1) < |c|
  {
    hide LinksTo, HasSize, Laid, Vacant;
    var o := lists[b][0];
    BinnedRemove(lists, free, b);
    SpelledRemove(c, heads, lists, free, b);
    SeparateWithout(free, live, |c|, o);
    DescendingRemove(lists, free, b);
    LaidBelow(free, |c|);
    LinksInside(c, heads, lists, free, b);
  }

  lemma BinnedRemove(lists: Lists, free: Blocks, b: nat)
    requires Binned(lists, free) && b < BUCKETS && lists[b] != [] && Distinct(lists[b])
    ensures Binned(lists[b := lists[b][1..]], free - {lists[b][0]})
  {
    var o := lists[b][0];
    var lists' := lists[b := lists[b][1..]];
    forall x | x in free - {o} ensures x in lists'[SizeToBucket(free[x])] {
      if SizeToBucket(free[x]) == b {
        var i :| 0 <= i < |lists[b]| && lists[b][i] == x;
        assert lists'[b][i - 1] == x;
      }
    }
  }

  lemma SpelledRemove(c: Cells, heads: seq<int>, lists: Lists, free: Blocks, b: nat)
    requires Spelled(c, heads, lists, free) && b < BUCKETS && lists[b] != []
    ensures Spelled(c, heads[b := At(lists[b], 1)], lists[b := lists[b][1..]], free - {lists[b][0]})
    ensures LinksTo(c, lists[b][0], At(lists[b], 1))
  {
    hide LinksTo, HasSize;
    var rest := lists[b][1..];
    forall i | 0 <= i < |rest| ensures LinksTo(c, rest[i], At(rest, i + 1)) {
      assert LinksTo(c, lists[b][i + 1], At(lists[b], i + 2));
    }
    assert Spells(c, heads[b], lists[b]);
  }

  lemma SeparateWithout(free: Blocks, live: Blocks, len: nat, o: int)
    requires Separate(free, live, len) && o in free
    ensures Separate(free - {o}, live, len) && Free(free - {o}, live, len, o, free[o])
  {
  }

  lemma DescendingRemove(lists: Lists, free: Blocks, b: nat)
    requires Binned(lists, free) && Descending(lists[0], free) && b < BUCKETS && lists[b] != []
    ensures Descending(lists[b := lists[b][1..]][0], free - {lists[b][0]})
  {
  }

  lemma LaidBelow(free: Blocks, len: nat)
    requires Laid(free, len)
    ensures forall x :: x in free ==> 0 <= x < len
  {
  }

  lemma LinksInside(c: Cells, heads: seq<int>, lists: Lists, free: Blocks, b: nat)
    requires Binned(lists, free) && b < BUCKETS && lists[b] != [] && forall x :: x in free ==> 0 <= x < |c|
    ensures -1 <= At(lists[b], 1) < |c| && lists[b][0] in free
  {
  }

  /** Handing out the first `req` cells of a removed block leaves the rest of it vacant. */
  lemma HandedOut(free: Blocks, live: Blocks, len: nat, o: int, size: nat, req: nat)
    requires Separate(free, live, len) && Free(free, live, len, o, size) && 2 <= req <= size
    ensures o !in live && Separate(free, live[o := req], len) && Free(free, live[o := req], len, o + req, size - req)
  {
  }

  /** Taking back an allocated block makes its cells vacant. */
  lemma TakenBack(free: Blocks, live: Blocks, len: nat, o: int)
    requires Separate(free, live, len) && o in live
    ensures Separate(free, live - {o}, len) && Free(free, live - {o}, len, o, live[o])
  {
  }

  lemma SameHeadersTwice(c: Cells, c': Cells, c'': Cells, free: Blocks, except: int)
    requires SameHeaders(c, c', free, -1) && SameHeaders(c', c'', free, except) && forall x :: x in free ==> 0 <= x
    ensures SameHeaders(c, c'', free, except)
  {
    forall x | x in free
      ensures (x != except ==> SameCells(c, c'', x)) && (4 <= free[x] ==> SameCells(c, c'', x + 2))
    {
      assert SameCells(c, c', x) && (x != except ==> SameCells(c', c'', x));
      assert 4 <= free[x] ==> SameCells(c, c', x + 2) && SameCells(c', c'', x + 2);
    }
  }

  lemma NextInside(c: Cells, lists: Lists, free: Blocks, b: nat, k: nat)
    requires Binned(lists, free) && Laid(free, |c|) && b < BUCKETS && k <= |lists[b]|
    ensures -1 <= At(lists[b], k) < |c| && Of(lists[b], free) && (k < |lists[b]| ==> At(lists[b], k) >= 0)
  {
  }

  /** What AddFixed's write does. */
  lemma FixedWrite(c: Cells, heads: seq<int>, lists: Lists, free: Blocks, live: Blocks, o: int, n: nat)
    requires Shape(c, heads, lists, free, live) && Free(free, live, |c|, o, n) && 2 <= n <= BUCKETS
    ensures var b := SizeToBucket(n); var c' := PutLink(c, o, heads[b]);
            && Shape(c', heads[b := o], lists[b := Insert(lists[b], 0, o)], free[o := n], live)
            && Untouched(c, c', live)
  {
    hide LinksTo, SameHeaders, Elsewhere, Untouched, Distinct, Descending;
    var b := SizeToBucket(n);
    assert Spells(c, heads[b], lists[b]);
    NextInside(c, lists, free, b, 0);
    var c' := PutLink(c, o, heads[b]);
    PutElsewhere(c, o, n, heads[b]);
    ElsewhereSameHeaders(c, c', free, o, n);
    UntouchedElsewhere(c, c', live, o, n);
    Added(c, c', heads, lists, free, live, 0, o, n);
  }

  /** The cells after a large block is put behind the first `k` of bucket 0. */
  function LargeCells(c: Cells, list: seq<int>, k: nat, o: int, n: nat): (c': Cells)
    requires 0 <= o && o + n <= |c| < 0x7FFF_0000 && 4 <= n && k <= |list|
    requires forall i :: 0 <= i < |list| ==> 0 <= list[i] && list[i] + 1 < |c|
  {
    var c1 := PutSize(PutLink(c, o, At(list, k)), o, n);
    if k == 0 then c1 else PutLink(c1, list[k - 1], o)
  }

  lemma LargeBounds(c: Cells, lists: Lists, free: Blocks)
    requires Binned(lists, free) && Laid(free, |c|)
    ensures forall i :: 0 <= i < |lists[0]| ==> 0 <= lists[0][i] && lists[0][i] + 1 < |c|
  {
  }

  lemma LargeWrite(c: Cells, heads: seq<int>, lists: Lists, free: Blocks, live: Blocks, k: nat, o: int, n: nat)
    requires Shape(c, heads, lists, free, live) && Free(free, live, |c|, o, n) && n > BUCKETS
    requires DescendingAt(lists[0], free, k, n) && k <= |lists[0]|
    requires forall i :: 0 <= i < |lists[0]| ==> 0 <= lists[0][i] && lists[0][i] + 1 < |c|
    ensures var c' := LargeCells(c, lists[0], k, o, n);
            && Shape(c', heads[0 := if k == 0 then o else heads[0]],
                     lists[0 := Insert(lists[0], k, o)], free[o := n], live)
            && Untouched(c, c', live)
  {
    hide LinksTo, HasSize, SameHeaders, Elsewhere, Untouched, Distinct, Descending, Spells, DescendingAt;
    var list := lists[0];
    var c1, c' := PutSize(PutLink(c, o, At(list, k)), o, n), LargeCells(c, list, k, o, n);
    NextInside(c, lists, free, 0, k);
    PutSizeElsewhere(c, o, n, At(list, k), n);
    ElsewhereSameHeaders(c, c1, free, o, n);
    UntouchedElsewhere(c, c1, live, o, n);
    if k > 0 {
      RelinkBefore(c1, free, live, o, n, list[k - 1], At(list, k));
      LaidFrom0(free, |c|);
      SameHeadersTwice(c, c1, c', free, list[k - 1]);
      UntouchedTwice(c, c1, c', live);
    }
    Added(c, c', heads, lists, free, live, k, o, n);
  }

  /** Pointing the block before at the new one. */
  lemma RelinkBefore(c: Cells, free: Blocks, live: Blocks, o: int, n: nat, x: int, next: int)
    requires Separate(free, live, |c|) && Free(free, live, |c|, o, n) && 4 <= n && x in free && |c| < 0x7FFF_0000
    requires LinksTo(c, o, next) && HasSize(c, o, n)
    ensures 0 <= x && x + 1 < |c|
    ensures var c' := PutLink(c, x, o);
            && SameHeaders(c, c', free, x) && LinksTo(c', x, o) && LinksTo(c', o, next) && HasSize(c', o, n)
            && Untouched(c, c', live)
  {
    var c' := PutLink(c, x, o);
    PutElsewhere(c, x, free[x], o);
    RelinkSameHeaders(c, free, x, o);
    LiveApart(free, live, |c|, x);
    UntouchedElsewhere(c, c', live, x, free[x]);
    assert Apart(o, n, x, free[x]);
    assert SameCells(c, c', o) && SameCells(c, c', o + 2);
  }

  lemma LiveApart(free: Blocks, live: Blocks, len: nat, x: int)
    requires Separate(free, live, len) && x in free
    ensures Vacant(live, len, x, free[x])
  {
    forall b | b in live ensures Apart(x, free[x], b, live[b]) {
      assert Vacant(free, len, b, live[b]);
    }
  }

  lemma EmptyPool(c: Cells, heads: seq<int>)
    requires |c| < 0x7FFF_0000 && |heads| == BUCKETS && forall b :: 0 <= b < BUCKETS ==> heads[b] == -1
    ensures Shape(c, heads, seq(BUCKETS, (i: int) => []), map[], map[])
  {
  }

  /** The block the allocator takes: an exact fit, else the largest of bucket 0 if it is large
      enough, else the first of the largest fixed size with any; -1 if no block is large enough. */
  ghost predicate Chosen(lists: Lists, free: Blocks, need: nat, r: int)
    requires |lists| == BUCKETS
  {
    if need <= BUCKETS && 2 <= need && lists[need - 1] != [] then r == lists[need - 1][0]
    else if lists[0] != [] && lists[0][0] in free && free[lists[0][0]] >= need then r == lists[0][0]
    else if exists b :: need <= b < BUCKETS && lists[b] != [] then
      exists b :: need <= b < BUCKETS && lists[b] != [] && r == lists[b][0]
                  && forall d :: b < d < BUCKETS ==> lists[d] == []
    else r == -1
  }

  /** -1 is chosen exactly when no free block is large enough, and then nothing else is. */
  lemma NoneIffSmall(lists: Lists, free: Blocks, need: nat)
    requires Binned(lists, free) && Descending(lists[0], free) && 2 <= need && forall o :: o in free ==> 0 <= o
    ensures forall r :: Chosen(lists, free, need, r) ==>
              (r == -1 <==> forall o :: o in free ==> free[o] < need) && (r != -1 ==> r in free && free[r] >= need)
  {
    forall r | Chosen(lists, free, need, r)
      ensures (r == -1 <==> forall o :: o in free ==> free[o] < need) && (r != -1 ==> r in free && free[r] >= need)
    {
      if r == -1 {
        forall o | o in free ensures free[o] < need {
          var b := SizeToBucket(free[o]);
          var i :| 0 <= i < |lists[b]| && lists[b][i] == o;
          assert free[lists[b][0]] >= free[o];
        }
      }
    }
  }

  lemma ChosenExact(lists: Lists, free: Blocks, need: nat)
    requires |lists| == BUCKETS && 2 <= need <= BUCKETS && lists[need - 1] != []
    ensures Chosen(lists, free, need, lists[need - 1][0])
  {
  }

  /** Neither an exact fit nor bucket 0 will do. */
  ghost predicate OnlySplit(lists: Lists, free: Blocks, need: nat)
    requires |lists| == BUCKETS
  {
    && 2 <= need && (need <= BUCKETS ==> lists[need - 1] == [])
    && (lists[0] != [] ==> lists[0][0] in free && free[lists[0][0]] < need)
  }

  lemma ChosenLarge(lists: Lists, free: Blocks, need: nat)
    requires |lists| == BUCKETS && 2 <= need && (need <= BUCKETS ==> lists[need - 1] == [])
    requires lists[0] != [] && lists[0][0] in free && free[lists[0][0]] >= need
    ensures Chosen(lists, free, need, lists[0][0])
  {
  }

  lemma ChosenSplit(lists: Lists, free: Blocks, need: nat, b: nat)
    requires |lists| == BUCKETS && OnlySplit(lists, free, need)
    requires need <= b < BUCKETS && lists[b] != [] && forall d :: b < d < BUCKETS ==> lists[d] == []
    ensures Chosen(lists, free, need, lists[b][0])
  {
  }

  lemma ChosenNone(lists: Lists, free: Blocks, need: nat)
    requires |lists| == BUCKETS && OnlySplit(lists, free, need)
    requires forall d :: need <= d < BUCKETS ==> lists[d] == []
    ensures Chosen(lists, free, need, -1)
  {
  }

  lemma TooSmall(lists: Lists, free: Blocks, need: nat)
    requires Binned(lists, free) && 2 <= need && forall o :: o in free ==> free[o] < need
    ensures Chosen(lists, free, need, -1)
  {
  }

  lemma UntouchedSame(c: Cells, live: Blocks)
    ensures Untouched(c, c, live)
  {
  }

  lemma NextIs(c: Cells, o: int, a: int, b: int)
    requires LinksTo(c, o, a) && LinksTo(c, o, b)
    ensures a == b
  {
  }

  lemma SizeIs(c: Cells, o: int, a: int, b: int)
    requires HasSize(c, o, a) && HasSize(c, o, b)
    ensures a == b
  {
  }

  /** What walking bucket 0 relies on. */
  lemma ListFacts(c: Cells, heads: seq<int>, lists: Lists, free: Blocks, live: Blocks)
    requires Shape(c, heads, lists, free, live)
    ensures |lists| == |heads| == BUCKETS && Of(lists[0], free) && heads[0] == At(lists[0], 0)
    ensures forall i :: 0 <= i < |lists[0]| ==>
              && 0 <= lists[0][i] && lists[0][i] + 3 < |c|
              && LinksTo(c, lists[0][i], At(lists[0], i + 1)) && HasSize(c, lists[0][i], free[lists[0][i]])
  {
    hide LinksTo, HasSize;
    assert Spells(c, heads[0], lists[0]);
  }

  lemma ShapeFacts(c: Cells, heads: seq<int>, lists: Lists, free: Blocks, live: Blocks, o: int, n: nat)
    requires Shape(c, heads, lists, free, live) && Free(free, live, |c|, o, n) && 2 <= n
    ensures |lists| == |heads| == BUCKETS && o !in free && 0 <= o && o + n <= |c| < 0x7FFF_0000
    ensures forall i :: 0 <= i < |lists[0]| ==> 0 <= lists[0][i] && lists[0][i] + 1 < |c|
  {
    VacantIsNew(free, |c|, o, n);
    LargeBounds(c, lists, free);
  }

  /** A block has room for the request, and for the links of a free list. */
  function Need(req: nat): (n: nat)
    ensures n >= req && n >= 2 && (n == req || n == 2)
  {
    if req < 2 then 2 else req
  }

  /** Block `o` went from free to allocated with `need` cells; what was left over is free again,
      or lost if it is a single cell. */
  ghost predicate Split(free: Blocks, live: Blocks, free': Blocks, live': Blocks, lost: int, o: int, need: nat) {
    && o in free && o !in live && need <= free[o] && live' == live[o := need]
    && var rest := free[o] - need;
       && free' == (if rest >= 2 then (free - {o})[o + need := rest] else free - {o})
       && lost == if rest == 1 then 1 else 0
  }

  lemma SplitIs(free: Blocks, live: Blocks, free': Blocks, live': Blocks, lost: int, o: int, need: nat)
    requires Split(free, live, free', live', lost, o, need)
    ensures o in free && o !in live && live' == live[o := need]
  {
  }

  lemma UntouchedLess(c: Cells, c': Cells, live: Blocks, o: int, n: nat)
    requires o !in live && Untouched(c, c', live[o := n])
    ensures Untouched(c, c', live)
  {
    forall b, p | b in live && 0 <= b <= p < b + live[b] && p < |c| ensures c'[p] == c[p] {
      assert b in live[o := n] && live[o := n][b] == live[b];
    }
  }

  lemma HeadInside(c: Cells, lists: Lists, free: Blocks, live: Blocks, heads: seq<int>, b: nat)
    requires Shape(c, heads, lists, free, live) && b < BUCKETS && lists[b] != []
    ensures 0 <= lists[b][0] && lists[b][0] + 1 < |c|
  {
  }

  lemma PoolFacts(c: Cells, heads: seq<int>, lists: Lists, free: Blocks, live: Blocks)
    requires Shape(c, heads, lists, free, live)
    ensures |lists| == |heads| == BUCKETS && Binned(lists, free) && Descending(lists[0], free)
    ensures forall b :: 0 <= b < BUCKETS ==> heads[b] == At(lists[b], 0)
    ensures forall b :: 0 <= b < BUCKETS && lists[b] != [] ==>
              lists[b][0] in free && SizeToBucket(free[lists[b][0]]) == b
    ensures forall o :: o in free ==> 0 <= o
    ensures lists[0] != [] ==> lists[0][0] + 3 < |c| && HasSize(c, lists[0][0], free[lists[0][0]])
  {
    hide LinksTo, HasSize;
    forall b | 0 <= b < BUCKETS ensures heads[b] == At(lists[b], 0) {
      assert Spells(c, heads[b], lists[b]);
    }
  }

  lemma TotalBounds(m: Blocks)
    ensures forall k :: k in m ==> m[k] <= Total(m)
  {
    forall k | k in m ensures m[k] <= Total(m) {
      TotalAtLeast(m, k);
    }
  }

  class ChainPool {

    const chainHlocks: array<u16>
    const buckets: array<int>
    var nrFree: nat
    var nrLost: nat
    var nrLarge: nat
    ghost var lists: Lists
    ghost var free: Blocks
    ghost var live: Blocks

    /** All invariants, when `gap` cells are in the hands of an operation under way. */
    ghost predicate Balanced(gap: nat)
      reads this, chainHlocks, buckets
    {
      && Shape(chainHlocks[..], buckets[..], lists, free, live)
      && nrFree == Total(free) && nrLarge == |lists[0]|
      && Total(free) + Total(live) + nrLost + gap == chainHlocks.Length
    }

    ghost predicate Valid()
      reads this, chainHlocks, buckets
    {
      Balanced(0)
    }

    ghost function Now(): (Cells, seq<int>, Lists, Blocks, Blocks, nat)
      reads this, chainHlocks, buckets
    {
      (chainHlocks[..], buckets[..], lists, free, live, nrLost)
    }

    /** init_chain_block_buckets. */
    constructor (size: nat)
      requires 2 <= size < 0x7FFF_0000
      ensures Valid() && fresh(chainHlocks) && fresh(buckets) && chainHlocks.Length == size
      ensures free == map[0 := size] && live == map[] && nrLost == 0
    {
      chainHlocks := new u16[size](_ => 0);
      buckets := new int[BUCKETS];
      nrFree, nrLost, nrLarge := 0, 0, 0;
      lists, free, live := seq(BUCKETS, (i: int) => []), map[], map[];
      new;
      for i := 0 to BUCKETS
        invariant forall j :: 0 <= j < i ==> buckets[j] == -1
        invariant lists == seq(BUCKETS, (i: int) => []) && free == map[] && live == map[]
        invariant nrFree == nrLost == nrLarge == 0
      {
        buckets[i] := -1;
      }
      EmptyPool(chainHlocks[..], buckets[..]);
      AddChainBlock(0, size);
    }

    method InitChainBlock(offset: int, next: int, bucket: int, size: nat)
      requires 0 <= offset && offset + 1 < chainHlocks.Length && size < 0x8000_0000
      requires size != 0 && bucket == 0 ==> offset + 3 < chainHlocks.Length
      modifies chainHlocks
      ensures var c := PutLink(old(chainHlocks[..]), offset, next);
              chainHlocks[..] == if size != 0 && bucket == 0 then PutSize(c, offset, size) else c
    {
      chainHlocks[offset] := High(next);
      chainHlocks[offset + 1] := Low(next);
      if size != 0 && bucket == 0 {
        chainHlocks[offset + 2] := (size / 0x1_0000) as u16;
        chainHlocks[offset + 3] := Low(size);
      }
    }

    method ChainBlockNext(offset: int) returns (next: int)
      requires 0 <= offset && offset + 1 < chainHlocks.Length
      ensures LinksTo(chainHlocks[..], offset, next)
    {
      var high := chainHlocks[offset];
      if high == LIST_END {
        return -1;
      }
      return (high as int % BLK_FLAG) * 0x1_0000 + chainHlocks[offset + 1] as int;
    }

    method ChainBlockSize(offset: int) returns (size: int)
      requires 0 <= offset && offset + 3 < chainHlocks.Length
      ensures HasSize(chainHlocks[..], offset, size)
    {
      return DecodeSize(chainHlocks[offset + 2], chainHlocks[offset + 3]);
    }

    /** Where a block of `size` goes in bucket 0, and its neighbours there. */
    method FindPlace(size: nat) returns (prev: int, curr: int, ghost k: nat)
      requires Shape(chainHlocks[..], buckets[..], lists, free, live)
      ensures |lists| == BUCKETS && k <= |lists[0]| && DescendingAt(lists[0], free, k, size)
      ensures curr == At(lists[0], k) && prev == if k > 0 then lists[0][k - 1] else -1
      ensures prev < 0 || (prev in lists[0] && prev in free && free[prev] > size)
      ensures curr < 0 || (curr in lists[0] && curr in free && free[curr] <= size)
      ensures prev < 0 ==> curr == At(lists[0], 0)
    {
      hide LinksTo, HasSize, Shape;
      ghost var c := chainHlocks[..];
      ListFacts(c, buckets[..], lists, free, live);
      prev, curr, k := -1, buckets[0], 0;
      while curr >= 0
        invariant k <= |lists[0]| && curr == At(lists[0], k)
        invariant prev == if k > 0 then lists[0][k - 1] else -1
        invariant forall i :: 0 <= i < k ==> free[lists[0][i]] > size
        decreases |lists[0]| - k
      {
        var large := ChainBlockSize(curr);
        SizeIs(c, curr, large, free[curr]);
        if size >= large {
          break;
        }
        var next := ChainBlockNext(curr);
        NextIs(c, curr, next, At(lists[0], k + 1));
        prev, curr, k := curr, next, k + 1;
      }
    }

    /** Variable sized blocks are kept sorted, a new one before its equals. */
    method AddLarge(offset: int, size: nat)
      requires Shape(chainHlocks[..], buckets[..], lists, free, live) && size > BUCKETS
      requires Free(free, live, chainHlocks.Length, offset, size)
      modifies chainHlocks, buckets, this`lists, this`free
      ensures Shape(chainHlocks[..], buckets[..], lists, free, live)
      ensures Untouched(old(chainHlocks[..]), chainHlocks[..], live)
      ensures free == old(free)[offset := size] && |lists[0]| == |old(lists)[0]| + 1
    {
      hide Shape, Untouched, Free, DescendingAt;
      var prev, curr;
      ghost var k;
      prev, curr, k := FindPlace(size);
      ghost var c, heads, list := chainHlocks[..], buckets[..], lists[0];
      ShapeFacts(c, heads, lists, free, live, offset, size);
      LargeWrite(c, heads, lists, free, live, k, offset, size);
      InitChainBlock(offset, curr, 0, size);
      if prev < 0 {
        buckets[0] := offset;
      } else {
        InitChainBlock(prev, offset, 0, 0);
      }
      assert chainHlocks[..] == LargeCells(c, list, k, offset, size);
      assert buckets[..] == heads[0 := if k == 0 then offset else heads[0]];
      lists, free := lists[0 := Insert(list, k, offset)], free[offset := size];
    }

    method AddChainBlock(offset: int, size: nat)
      requires Balanced(size) && Free(free, live, chainHlocks.Length, offset, size)
      modifies this, chainHlocks, buckets
      ensures Valid() && live == old(live) && Untouched(old(chainHlocks[..]), chainHlocks[..], live)
      ensures size < 2 ==> free == old(free) && lists == old(lists) && nrLost == old(nrLost) + size
      ensures size >= 2 ==> free == old(free)[offset := size] && nrLost == old(nrLost)
      ensures 2 <= size <= BUCKETS ==> lists == old(lists)[size - 1 := [offset] + old(lists)[size - 1]]
    {
      hide Shape, Untouched, Free;
      var bucket := SizeToBucket(size);
      if size < 2 {
        if size != 0 {
          nrLost := nrLost + 1;
        }
        UntouchedSame(chainHlocks[..], live);
        return;
      }
      ShapeFacts(chainHlocks[..], buckets[..], lists, free, live, offset, size);
      TotalWith(free, offset, size);
      nrFree := nrFree + size;
      if bucket == 0 {
        nrLarge := nrLarge + 1;
        AddLarge(offset, size);
        return;
      }
      FixedWrite(chainHlocks[..], buckets[..], lists, free, live, offset, size);
      InitChainBlock(offset, buckets[bucket], bucket, size);
      buckets[bucket] := offset;
      assert Insert(lists[bucket], 0, offset) == [offset] + lists[bucket];
      lists, free := lists[bucket := Insert(lists[bucket], 0, offset)], free[offset := size];
    }

    /** Only the first block of a list can be taken off. */
    method DelChainBlock(bucket: int, size: nat, next: int)
      requires Valid() && 0 <= bucket < BUCKETS && lists[bucket] != [] && size == free[lists[bucket][0]]
      requires LinksTo(chainHlocks[..], lists[bucket][0], next)
      modifies this`nrFree, this`nrLarge, this`lists, this`free, buckets
      ensures Balanced(size) && free == old(free) - {old(lists)[bucket][0]}
      ensures lists == old(lists)[bucket := old(lists)[bucket][1..]]
      ensures Free(free, live, chainHlocks.Length, old(lists)[bucket][0], size)
    {
      hide LinksTo, Shape, Free;
      PoolFacts(chainHlocks[..], buckets[..], lists, free, live);
      ghost var o := lists[bucket][0];
      Removed(chainHlocks[..], buckets[..], lists, free, live, bucket);
      NextIs(chainHlocks[..], o, next, At(lists[bucket], 1));
      TotalWithout(free, o);
      TotalAtLeast(free, o);
      nrFree := nrFree - size;
      buckets[bucket] := next;
      if bucket == 0 {
        nrLarge := nrLarge - 1;
      }
      lists, free := lists[bucket := lists[bucket][1..]], free - {o};
    }

    /** Take the first block of a list, keep `req` cells and put the rest back. */
    method TakeFrom(bucket: int, curr: int, size: nat, req: nat)
      requires Valid() && 0 <= bucket < BUCKETS && lists[bucket] != [] && curr == lists[bucket][0]
      requires size == free[curr] && 2 <= req <= size
      modifies this, chainHlocks, buckets
      ensures Valid() && Untouched(old(chainHlocks[..]), chainHlocks[..], old(live))
      ensures Split(old(free), old(live), free, live, nrLost - old(nrLost), curr, req)
    {
      hide LinksTo, Shape, Free, Untouched;
      Removed(chainHlocks[..], buckets[..], lists, free, live, bucket);
      HeadInside(chainHlocks[..], lists, free, live, buckets[..], bucket);
      var next := ChainBlockNext(curr);
      DelChainBlock(bucket, size, next);
      HandOut(curr, size, req);
      UntouchedSame(chainHlocks[..], live);
      if size > req {
        AddChainBlock(curr + req, size - req);
      }
      UntouchedLess(old(chainHlocks[..]), chainHlocks[..], old(live), curr, req);
    }

    /** The cells of a removed block become the caller's. */
    ghost method HandOut(o: int, size: nat, req: nat)
      requires Balanced(size) && Free(free, live, chainHlocks.Length, o, size) && 2 <= req <= size
      modifies this`live
      ensures Balanced(size - req) && Free(free, live, chainHlocks.Length, o + req, size - req)
      ensures o !in old(live) && live == old(live)[o := req]
    {
      hide Binned, Spelled, Descending, Separate, Free;
      HandedOut(free, live, chainHlocks.Length, o, size, req);
      TotalWith(live, o, req);
      live := live[o := req];
    }

    /** A free block of which `req` cells are handed out, but at least two, or -1 when no free block has
        that many. */
    method AllocChainHlocks(req: nat) returns (r: int)
      requires Valid()
      modifies this, chainHlocks, buckets
      ensures Valid() && Untouched(old(chainHlocks[..]), chainHlocks[..], old(live))
      ensures Chosen(old(lists), old(free), Need(req), r)
      ensures r == -1 <==> forall o :: o in old(free) ==> old(free)[o] < 2 || old(free)[o] < req
      ensures r != -1 ==> r in old(free) && r !in old(live) && live == old(live)[r := if req < 2 then 2 else req]
      ensures r == -1 ==> free == old(free) && live == old(live) && lists == old(lists) && nrLost == old(nrLost)
      ensures r != -1 ==> Split(old(free), old(live), free, live, nrLost - old(nrLost), r, Need(req))
    {
      hide LinksTo, HasSize, Shape, Free, Untouched, Split, Binned, Descending, Chosen;
      PoolFacts(chainHlocks[..], buckets[..], lists, free, live);
      UntouchedSame(chainHlocks[..], live);
      if nrFree < req {
        TotalBounds(free);
        TooSmall(lists, free, Need(req));
        return -1;
      }
      var need := Need(req);
      NoneIffSmall(lists, free, need);
      var bucket := SizeToBucket(need);
      var curr := buckets[bucket];
      if bucket != 0 {
        if curr >= 0 {
          ChosenExact(lists, free, need);
          TakeFrom(bucket, curr, need, need);
          SplitIs(old(free), old(live), free, live, nrLost - old(nrLost), curr, need);
          return curr;
        }
        curr := buckets[0];
      }
      if curr >= 0 {
        var size := ChainBlockSize(curr);
        SizeIs(chainHlocks[..], curr, size, free[curr]);
        if size >= need {
          ChosenLarge(lists, free, need);
          TakeFrom(0, curr, size, need);
          SplitIs(old(free), old(live), free, live, nrLost - old(nrLost), curr, need);
          return curr;
        }
      }
      var size := BUCKETS;
      while size > need
        invariant Valid() && Now() == old(Now()) && |lists| == |buckets[..]| == BUCKETS
        invariant need <= size || size == BUCKETS
        invariant forall d :: size <= d < BUCKETS ==> lists[d] == []
      {
        bucket := SizeToBucket(size);
        curr := buckets[bucket];
        if curr >= 0 {
          ChosenSplit(lists, free, need, bucket);
          TakeFrom(bucket, curr, size, need);
          SplitIs(old(free), old(live), free, live, nrLost - old(nrLost), curr, need);
          return curr;
        }
        size := size - 1;
      }
      ChosenNone(lists, free, need);
      return -1;
    }

    /** Give an allocated block back. */
    method FreeChainHlocks(base: int, size: nat)
      requires Valid() && base in live && live[base] == Need(size)
      modifies this, chainHlocks, buckets
      ensures Valid() && live == old(live) - {base} && free == old(free)[base := Need(size)] && nrLost == old(nrLost)
      ensures base !in old(free) && Untouched(old(chainHlocks[..]), chainHlocks[..], live)
    {
      hide LinksTo, HasSize, Shape, Free, Untouched;
      Reclaim(base);
      AddChainBlock(base, Need(size));
    }

    ghost method Reclaim(base: int)
      requires Valid() && base in live
      modifies this`live
      ensures live == old(live) - {base} && Balanced(old(live)[base])
      ensures base !in free && Free(free, live, chainHlocks.Length, base, old(live)[base])
    {
      hide Binned, Spelled, Descending, Free;
      TakenBack(free, live, chainHlocks.Length, base);
      TotalWithout(live, base);
      live := live - {base};
    }
  }
}
