/** What a Bloom filter stands for: the bits that the items added to it account for. */
module BloomSpec {

  const TWO_64: nat := 0x1_0000_0000_0000_0000
  const MAX_HASHES: nat := 50
  const MAX_ITEM_LENGTH: nat := 1024 * 1024

  /** An item's three 64-bit digests: FNV-1a, and the first eight bytes of MD5 and of SHA-256. */
  datatype Digests = Digests(fnv: nat, md5: nat, sha256: nat)

  /** The size and hash count chosen at construction, and the digests of the items. */
  datatype Shape = Shape(size: nat, hashCount: nat, digests: string -> Digests) {
    ghost predicate Valid() {
      size > 0 && 1 <= hashCount <= MAX_HASHES
    }
  }

  /** The i-th position of an item, over unbounded integers but for one final wrap to 64 bits. */
  function Position(sh: Shape, item: string, i: nat): (pos: nat)
    requires sh.size > 0
    ensures pos < sh.size
  {
    var d := sh.digests(item);
    (d.fnv + i * d.md5 + i * i * d.sha256) % TWO_64 % sh.size
  }

  /** The hashes of an item without multiplications by squares: the first is its FNV digest, and each is followed by one
      that is larger by its MD5 digest and by the next odd multiple of its SHA-256 digest. */
  function NthHash(d: Digests, i: nat): nat {
    if i == 0 then d.fnv else NthHash(d, i - 1) + d.md5 + (2 * i - 1) * d.sha256
  }

  lemma {:induction false} NthHashIs(d: Digests, i: nat)
    ensures NthHash(d, i) == d.fnv + i * d.md5 + i * i * d.sha256
  {
    if i > 0 {
      NthHashIs(d, i - 1);
      NextSquare(i);
      Distributes((i - 1) * (i - 1), 2 * i - 1, d.sha256);
      Distributes(i - 1, 1, d.md5);
    }
  }

  lemma NextSquare(i: int)
    ensures i * i == (i - 1) * (i - 1) + (2 * i - 1)
  {
  }

  lemma Distributes(a: int, b: int, x: int)
    ensures (a + b) * x == a * x + b * x
  {
  }

  /** So the positions can be computed in turn. */
  lemma PositionsInTurn(sh: Shape, item: string, i: nat)
    requires sh.size > 0
    ensures Position(sh, item, i) == NthHash(sh.digests(item), i) % TWO_64 % sh.size
  {
    NthHashIs(sh.digests(item), i);
  }

  /** uint64 arithmetic wraps after every operation; the position is the same. */
  lemma WrapsOnce(h1: nat, h2: nat, h3: nat, i: nat)
    ensures ((h1 + i * h2 % TWO_64) % TWO_64 + i * i * h3 % TWO_64) % TWO_64 == (h1 + i * h2 + i * i * h3) % TWO_64
  {
    WrapSum(h1, i * h2);
    WrapSum(h1 + i * h2, i * i * h3);
  }

  lemma WrapSum(a: nat, b: nat)
    ensures (a + b % TWO_64) % TWO_64 == (a + b) % TWO_64
    ensures (a % TWO_64 + b % TWO_64) % TWO_64 == (a + b) % TWO_64
  {
  }

  ghost predicate Hits(sh: Shape, item: string, pos: nat)
    requires sh.size > 0
  {
    exists i :: 0 <= i < sh.hashCount && Position(sh, item, i) == pos
  }

  /** Some item of `items` has a position at `pos`. */
  ghost predicate Covered(sh: Shape, items: seq<string>, pos: nat)
    requires sh.size > 0
  {
    exists k :: 0 <= k < |items| && Hits(sh, items[k], pos)
  }

  /** A bit is set exactly when some item accounts for it. */
  ghost predicate Exact(sh: Shape, bits: seq<bool>, items: seq<string>)
    requires sh.size > 0
  {
    |bits| == sh.size && forall pos :: 0 <= pos < sh.size ==> (bits[pos] <==> Covered(sh, items, pos))
  }

  /** The answer for an item: all its bits are set. */
  ghost predicate MightContain(sh: Shape, bits: seq<bool>, item: string)
    requires sh.size > 0 && |bits| == sh.size
  {
    forall i :: 0 <= i < sh.hashCount ==> bits[Position(sh, item, i)]
  }

  lemma CoveredAppend(sh: Shape, items: seq<string>, item: string, pos: nat)
    requires sh.size > 0
    ensures Covered(sh, items + [item], pos) <==> Covered(sh, items, pos) || Hits(sh, item, pos)
  {
    var more := items + [item];
    if Covered(sh, items, pos) {
      var k :| 0 <= k < |items| && Hits(sh, items[k], pos);
      assert Hits(sh, more[k], pos);
    }
    if Hits(sh, item, pos) {
      assert Hits(sh, more[|items|], pos);
    }
  }

  /** Whatever bits are exact for items, no added item is ever reported absent. */
  lemma NoFalseNegatives(sh: Shape, bits: seq<bool>, items: seq<string>, item: string)
    requires sh.Valid() && Exact(sh, bits, items) && item in items
    ensures MightContain(sh, bits, item)
  {
    var k :| 0 <= k < |items| && items[k] == item;
    forall i | 0 <= i < sh.hashCount ensures bits[Position(sh, item, i)] {
      assert Hits(sh, items[k], Position(sh, item, i));
    }
  }

  /** The bits depend only on which items were added, not on the order, the repetitions or the batches. */
  lemma SameItemsSameBits(sh: Shape, bits: seq<bool>, bits': seq<bool>, items: seq<string>, items': seq<string>)
    requires sh.Valid() && Exact(sh, bits, items) && Exact(sh, bits', items')
    requires forall item :: item in items <==> item in items'
    ensures bits == bits'
  {
    forall pos | 0 <= pos < sh.size ensures bits[pos] == bits'[pos] {
      if Covered(sh, items, pos) {
        var k :| 0 <= k < |items| && Hits(sh, items[k], pos);
        assert items[k] in items';
        var j :| 0 <= j < |items'| && items'[j] == items[k];
        assert Hits(sh, items'[j], pos);
      }
      if Covered(sh, items', pos) {
        var k :| 0 <= k < |items'| && Hits(sh, items'[k], pos);
        assert items'[k] in items;
        var j :| 0 <= j < |items| && items[j] == items'[k];
        assert Hits(sh, items[j], pos);
      }
    }
  }

  /** Every bit set in `a` is set in `b`. */
  ghost predicate Within(a: seq<bool>, b: seq<bool>) {
    |a| == |b| && forall pos :: 0 <= pos < |a| && a[pos] ==> b[pos]
  }

  // ---- how many bits ----------------------------------------------------------------------------

  function Ones(bits: seq<bool>): (n: nat)
  {
    if bits == [] then 0 else Ones(bits[..|bits| - 1]) + if bits[|bits| - 1] then 1 else 0
  }

  ghost function SetPositions(bits: seq<bool>): set<nat> {
    set pos: nat | pos < |bits| && bits[pos]
  }

  lemma {:induction false} OnesAreSet(bits: seq<bool>)
    ensures |SetPositions(bits)| == Ones(bits) <= |bits|
  {
    if bits != [] {
      var n := |bits| - 1;
      OnesAreSet(bits[..n]);
      assert SetPositions(bits) == SetPositions(bits[..n]) + if bits[n] then {n} else {};
    }
  }

  /** The first n positions of an item. */
  ghost function PositionsOf(sh: Shape, item: string, n: nat): (ps: set<nat>)
    requires sh.size > 0
    ensures |ps| <= n
    ensures forall i :: 0 <= i < n ==> Position(sh, item, i) in ps
  {
    if n == 0 then {} else PositionsOf(sh, item, n - 1) + {Position(sh, item, n - 1)}
  }

  ghost function PositionsOfAll(sh: Shape, items: seq<string>): (ps: set<nat>)
    requires sh.size > 0
    ensures forall k, i :: 0 <= k < |items| && 0 <= i < sh.hashCount ==> Position(sh, items[k], i) in ps
  {
    if items == [] then {}
    else
      var n := |items| - 1;
      assert items == items[..n] + [items[n]];
      PositionsOfAll(sh, items[..n]) + PositionsOf(sh, items[n], sh.hashCount)
  }

  lemma UnionSize(a: set<nat>, b: set<nat>)
    ensures |a + b| <= |a| + |b|
  {
    assert a + b == a + (b - a);
    assert |b| == |b - a| + |b * a| by {
      assert b == (b - a) + (b * a);
    }
  }

  lemma OneMore(h: int, n: int)
    ensures h * (n + 1) == h * n + h
  {
  }

  lemma {:induction false} PositionsOfAllSize(sh: Shape, items: seq<string>)
    requires sh.size > 0
    ensures |PositionsOfAll(sh, items)| <= sh.hashCount * |items|
  {
    if items != [] {
      var n := |items| - 1;
      PositionsOfAllSize(sh, items[..n]);
      UnionSize(PositionsOfAll(sh, items[..n]), PositionsOf(sh, items[n], sh.hashCount));
      OneMore(sh.hashCount, n);
    }
  }

  /** At most hashCount bits per item, and never more than there are. */
  lemma FillBound(sh: Shape, bits: seq<bool>, items: seq<string>)
    requires sh.Valid() && Exact(sh, bits, items)
    ensures Ones(bits) <= sh.size && Ones(bits) <= sh.hashCount * |items|
  {
    OnesAreSet(bits);
    var all := PositionsOfAll(sh, items);
    PositionsOfAllSize(sh, items);
    forall pos | pos in SetPositions(bits) ensures pos in all {
      var k :| 0 <= k < |items| && Hits(sh, items[k], pos);
    }
    assert SetPositions(bits) <= all;
    assert |all| == |SetPositions(bits)| + |all - SetPositions(bits)|;
  }
}
