/**
 * Creating and destroying DMA buffers (pcieuni_buffer_create and
 * pcieuni_buffer_destroy) against a ledger of what the kernel has handed out.
 */
module BufferMemory {
  import opened Common

  const PAGE_SIZE: nat := 4096
  const PAGE_SHIFT: nat := 12
  const TWO30: nat := 0x4000_0000

  // Sizes.

  function Pow2(n: nat): (p: nat)
    ensures p > 0
  {
    if n == 0 then 1 else 2 * Pow2(n - 1)
  }

  /** get_order: the least page order that holds the size; zero has no order and gives 52 on 64 bits. */
  function GetOrder(size: nat): (order: nat)
    ensures size > 0 ==> size <= PAGE_SIZE * Pow2(order)
    ensures size > 0 && order > 0 ==> PAGE_SIZE * Pow2(order - 1) < size
  {
    if size == 0 then 52 else OrderFrom(size, 0)
  }

  function OrderFrom(size: nat, n: nat): (order: nat)
    requires size > 0 && (n > 0 ==> PAGE_SIZE * Pow2(n - 1) < size)
    ensures n <= order && size <= PAGE_SIZE * Pow2(order)
    ensures order > 0 ==> PAGE_SIZE * Pow2(order - 1) < size
    decreases size - Pow2(n)
  {
    if size <= PAGE_SIZE * Pow2(n) then n else OrderFrom(size, n + 1)
  }

  /** `1 << n` on a 32-bit int, stored in an unsigned long; undefined from 32 on. */
  function ShiftOne(n: nat): Option<nat> {
    if n <= 30 then Some(Pow2(n)) else if n == 31 then Some(TWO64 - 2 * TWO30) else None
  }

  lemma {:induction false} PowerGrows(a: nat, b: nat)
    requires a <= b
    ensures Pow2(a) <= Pow2(b)
    decreases b - a
  {
    if a < b {
      PowerGrows(a, b - 1);
    }
  }

  lemma {:induction false} PowerSum(a: nat, b: nat)
    ensures Pow2(a + b) == Pow2(a) * Pow2(b)
  {
    if b > 0 {
      PowerSum(a, b - 1);
      assert Pow2(a) * (2 * Pow2(b - 1)) == 2 * (Pow2(a) * Pow2(b - 1));
    }
  }

  /** No smaller order holds the size. */
  lemma LeastOrder(size: nat, n: nat)
    requires size > 0
    ensures size <= PAGE_SIZE * Pow2(n) <==> GetOrder(size) <= n
  {
    var order := GetOrder(size);
    if order <= n {
      PowerGrows(order, n);
    } else {
      PowerGrows(n, order - 1);
    }
  }

  lemma Order18()
    ensures PAGE_SIZE * Pow2(18) == TWO30
  {
    PowerSum(9, 9);
    assert Pow2(9) == 512;
  }

  /** The recorded size is the size of the block exactly for requests of at most 2^30 bytes. */
  lemma SizeExactly(size: nat)
    requires 0 < size < TWO64
    ensures ShiftOne(GetOrder(size) + PAGE_SHIFT) == Some(PAGE_SIZE * Pow2(GetOrder(size))) <==> size <= TWO30
  {
    var order := GetOrder(size);
    Order18();
    LeastOrder(size, 18);
    PowerSum(order, PAGE_SHIFT);
    assert Pow2(PAGE_SHIFT) == PAGE_SIZE;
    if order == 19 {
      assert Pow2(19) == 2 * Pow2(18);
    }
  }

  lemma BlockSize(order: nat)
    requires order + PAGE_SHIFT <= 30
    ensures ShiftOne(order + PAGE_SHIFT) == Some(PAGE_SIZE * Pow2(order))
  {
    PowerSum(order, PAGE_SHIFT);
    assert Pow2(PAGE_SHIFT) == PAGE_SIZE;
  }

  // The ledger.

  class Buffer {
    var order: nat
    var size: nat
    var available: bool
    var waiting: bool
    var kaddr: nat
    var dmaHandle: Option<nat>

    constructor ()
      ensures order == 0 && size == 0 && !available && !waiting && kaddr == 0 && dmaHandle == None
    {
      order, size, available, waiting, kaddr, dmaHandle := 0, 0, false, false, 0, None;
    }
  }

  ghost predicate PageAligned(kaddr: nat) {
    exists p: nat :: kaddr == PAGE_SIZE * p
  }

  /** The pages of a block: 2^order of them. */
  ghost function Pages(kaddr: nat, order: nat): (p: set<int>) {
    Range(kaddr / PAGE_SIZE, Pow2(order))
  }

  lemma PagesCount(kaddr: nat, order: nat)
    ensures |Pages(kaddr, order)| == Pow2(order)
  {
    RangeSize(kaddr / PAGE_SIZE, Pow2(order));
  }

  /** What the kernel has handed out: structs, page blocks with their order, reserved pages, mappings with their size. */
  class Kernel {
    var structs: set<Buffer>
    var blocks: map<nat, nat>
    var reserved: set<int>
    var mappings: map<nat, (nat, nat)>

    constructor ()
      ensures structs == {} && blocks == map[] && reserved == {} && mappings == map[]
    {
      structs, blocks, reserved, mappings := {}, map[], {}, map[];
    }

    /** An allocated block is new and aligned, not above 1 GiB, and none of its pages is reserved. */
    ghost predicate MayAllocate(kaddr: nat, order: nat)
      reads this
    {
      && kaddr !in blocks && PageAligned(kaddr) && order + PAGE_SHIFT <= 30
      && Pages(kaddr, order) !! reserved
    }

    /** A buffer that create has returned. */
    ghost predicate Owns(b: Buffer)
      reads this, b
    {
      && b in structs && b.kaddr != 0 && b.kaddr in blocks && blocks[b.kaddr] == b.order
      && b.size == PAGE_SIZE * Pow2(b.order) && PageAligned(b.kaddr)
      && b.dmaHandle.Some? && b.dmaHandle.value in mappings && mappings[b.dmaHandle.value] == (b.kaddr, b.size)
      && Pages(b.kaddr, b.order) <= reserved
    }

    /** SetPageReserved on every page of the block. */
    method MarkPages(kaddr: nat, size: nat, ghost order: nat)
      requires PageAligned(kaddr) && size == PAGE_SIZE * Pow2(order)
      modifies this`reserved
      ensures reserved == old(reserved) + Pages(kaddr, order)
    {
      ghost var first: nat :| kaddr == PAGE_SIZE * first;
      var iter := 0;
      ghost var n := 0;
      while iter < size
        invariant iter == PAGE_SIZE * n && 0 <= n <= Pow2(order)
        invariant reserved == old(reserved) + Range(first, n)
        decreases Pow2(order) - n
      {
        PageOf(kaddr + iter, first + n);
        reserved := reserved + {(kaddr + iter) / PAGE_SIZE};
        iter, n := iter + PAGE_SIZE, n + 1;
      }
      PageOf(kaddr, first);
    }

    /** ClearPageReserved on every page of the block. */
    method UnmarkPages(kaddr: nat, size: nat, ghost order: nat)
      requires PageAligned(kaddr) && size == PAGE_SIZE * Pow2(order)
      modifies this`reserved
      ensures reserved == old(reserved) - Pages(kaddr, order)
    {
      ghost var first: nat :| kaddr == PAGE_SIZE * first;
      var iter := 0;
      ghost var n := 0;
      while iter < size
        invariant iter == PAGE_SIZE * n && 0 <= n <= Pow2(order)
        invariant reserved == old(reserved) - Range(first, n)
        decreases Pow2(order) - n
      {
        PageOf(kaddr + iter, first + n);
        reserved := reserved - {(kaddr + iter) / PAGE_SIZE};
        iter, n := iter + PAGE_SIZE, n + 1;
      }
      PageOf(kaddr, first);
    }

    /**
     * pcieuni_buffer_create. Any of the three steps may fail: kzalloc
     * (structFails), __get_free_pages (block 0) and dma_map_single (no handle).
     */
    method Create(bufSize: nat, structFails: bool, block: nat, handle: Option<nat>) returns (b: Buffer?)
      requires bufSize < TWO64 && (block != 0 ==> MayAllocate(block, GetOrder(bufSize)))
      requires handle.Some? ==> handle.value !in mappings
      modifies this
      ensures b == null <==> structFails || block == 0 || handle.None?
      ensures b == null ==> structs == old(structs) && blocks == old(blocks) && reserved == old(reserved) && mappings == old(mappings)
      ensures b != null ==>
                && fresh(b) && Owns(b) && b.kaddr == block && b.dmaHandle == handle && b.order == GetOrder(bufSize)
                && b.available && !b.waiting
                && structs == old(structs) + {b} && blocks == old(blocks)[block := b.order]
                && reserved == old(reserved) + Pages(block, b.order)
                && mappings == old(mappings)[handle.value := (block, b.size)]
    {
      if structFails {
        return null;
      }
      b := new Buffer();
      structs := structs + {b};
      var order := GetOrder(bufSize);
      var size := ShiftOne(order + PAGE_SHIFT);
      b.order, b.size := order, if size.Some? then size.value else 0;
      b.available, b.waiting := true, false;
      if block == 0 {
        Destroy(b);
        return null;
      }
      BlockSize(order);
      FillBlock(b, block, handle);
      if handle.None? {
        Destroy(b);
        return null;
      }
    }

    /** The pages and the mapping of a new buffer. */
    method FillBlock(b: Buffer, block: nat, handle: Option<nat>)
      requires block != 0 && PageAligned(block) && b.size == PAGE_SIZE * Pow2(b.order)
      modifies this`blocks, this`reserved, this`mappings, b`kaddr, b`dmaHandle
      ensures b.kaddr == block && b.dmaHandle == handle && blocks == old(blocks)[block := b.order]
      ensures reserved == old(reserved) + Pages(block, b.order)
      ensures mappings == if handle.Some? then old(mappings)[handle.value := (block, b.size)] else old(mappings)
    {
      b.kaddr := block;
      blocks := blocks[block := b.order];
      MarkPages(block, b.size, b.order);
      b.dmaHandle := handle;
      if handle.Some? {
        mappings := mappings[handle.value := (block, b.size)];
      }
    }

    /** pcieuni_buffer_destroy, of a buffer that got as far as its pages, its mapping, or neither. */
    method Destroy(b: Buffer?)
      requires b != null && b.kaddr != 0 ==>
                 PageAligned(b.kaddr) && b.size == PAGE_SIZE * Pow2(b.order)
      modifies this
      ensures b == null ==> structs == old(structs)
      ensures b != null ==> structs == old(structs) - {b}
      ensures b == null || b.kaddr == 0 ==>
                blocks == old(blocks) && reserved == old(reserved) && mappings == old(mappings)
      ensures b != null && b.kaddr != 0 ==>
                && blocks == old(blocks) - {b.kaddr} && reserved == old(reserved) - Pages(b.kaddr, b.order)
                && mappings == if b.dmaHandle.Some? then old(mappings) - {b.dmaHandle.value} else old(mappings)
    {
      if b == null {
        return;
      }
      if b.kaddr != 0 {
        if b.dmaHandle.Some? {
          mappings := mappings - {b.dmaHandle.value};
        }
        UnmarkPages(b.kaddr, b.size, b.order);
        blocks := blocks - {b.kaddr};
      }
      structs := structs - {b};
    }

    /** Creating a buffer and destroying it leaves the ledger as it was, whatever fails on the way. */
    method CreateThenDestroy(bufSize: nat, structFails: bool, block: nat, handle: Option<nat>)
      requires bufSize < TWO64 && (block != 0 ==> MayAllocate(block, GetOrder(bufSize)))
      requires handle.Some? ==> handle.value !in mappings
      modifies this
      ensures structs == old(structs) && blocks == old(blocks) && reserved == old(reserved) && mappings == old(mappings)
    {
      var b := Create(bufSize, structFails, block, handle);
      Destroy(b);
    }

    // Several buffers.

    ghost function Books(): Ledger
      reads this
    {
      Ledger(blocks, reserved, mappings)
    }

    /** A create adds the assets of the new buffer to those of all buffers before, or nothing if it fails. */
    method CreateNext(bufSize: nat, structFails: bool, block: nat, handle: Option<nat>, ghost base: Ledger, ghost s: seq<Asset>)
      returns (b: Buffer?, ghost s': seq<Asset>)
      requires AllFresh(base, s) && Books() == Total(base, s)
      requires bufSize < TWO64 && (block != 0 ==> MayAllocate(block, GetOrder(bufSize)))
      requires handle.Some? ==> handle.value !in mappings
      modifies this
      ensures AllFresh(base, s') && Books() == Total(base, s')
      ensures s' == if b == null then s else s + [AssetOf(b)]
    {
      b := Create(bufSize, structFails, block, handle);
      s' := if b == null then s else s + [AssetOf(b)];
      assert b != null ==> s'[..|s'| - 1] == s;
    }

    /** A destroy of any of them takes out its assets and leaves those of the others. */
    method DestroyNext(b: Buffer, ghost base: Ledger, ghost s: seq<Asset>, ghost i: nat)
      requires AllFresh(base, s) && Books() == Total(base, s)
      requires i < |s| && b.dmaHandle.Some? && s[i] == AssetOf(b) && b.size == PAGE_SIZE * Pow2(b.order)
      requires b.kaddr != 0 && PageAligned(b.kaddr)
      modifies this
      ensures AllFresh(base, s[..i] + s[i + 1..]) && Books() == Total(base, s[..i] + s[i + 1..])
    {
      DropAny(base, s, i);
      Destroy(b);
    }
  }

  /** What the kernel has handed out, structs apart. */
  datatype Ledger = Ledger(blocks: map<nat, nat>, reserved: set<int>, mappings: map<nat, (nat, nat)>)

  /** What one buffer has of it. */
  datatype Asset = Asset(kaddr: nat, order: nat, handle: nat)

  ghost function AssetOf(b: Buffer): Asset
    reads b
  {
    Asset(b.kaddr, b.order, if b.dmaHandle.Some? then b.dmaHandle.value else 0)
  }

  ghost function Added(l: Ledger, a: Asset): Ledger {
    Ledger(l.blocks[a.kaddr := a.order], l.reserved + Pages(a.kaddr, a.order),
           l.mappings[a.handle := (a.kaddr, PAGE_SIZE * Pow2(a.order))])
  }

  ghost function Dropped(l: Ledger, a: Asset): Ledger {
    Ledger(l.blocks - {a.kaddr}, l.reserved - Pages(a.kaddr, a.order), l.mappings - {a.handle})
  }

  /** The asset is not handed out yet. */
  ghost predicate Fresh(l: Ledger, a: Asset) {
    a.kaddr !in l.blocks && Pages(a.kaddr, a.order) !! l.reserved && a.handle !in l.mappings
  }

  ghost predicate Has(l: Ledger, a: Asset) {
    && a.kaddr in l.blocks && l.blocks[a.kaddr] == a.order && Pages(a.kaddr, a.order) <= l.reserved
    && a.handle in l.mappings && l.mappings[a.handle] == (a.kaddr, PAGE_SIZE * Pow2(a.order))
  }

  /** A ledger with the assets of several buffers on top. */
  ghost function Total(base: Ledger, s: seq<Asset>): Ledger {
    if s == [] then base else Added(Total(base, s[..|s| - 1]), s[|s| - 1])
  }

  /** Each of them was new when it was handed out. */
  ghost predicate AllFresh(base: Ledger, s: seq<Asset>) {
    s == [] || (AllFresh(base, s[..|s| - 1]) && Fresh(Total(base, s[..|s| - 1]), s[|s| - 1]))
  }

  lemma DropLast(l: Ledger, a: Asset)
    requires Fresh(l, a)
    ensures Dropped(Added(l, a), a) == l
  {
    assert l.blocks[a.kaddr := a.order] - {a.kaddr} == l.blocks;
  }

  /** Buffers do not interfere: handing out one and taking back another commute. */
  lemma Commute(l: Ledger, a: Asset, b: Asset)
    requires Fresh(l, a) && Has(l, b)
    ensures Added(Dropped(l, b), a) == Dropped(Added(l, a), b) && Fresh(Dropped(l, b), a)
  {
    var p := Pages(a.kaddr, a.order);
    assert Added(Dropped(l, b), a).blocks == Dropped(Added(l, a), b).blocks;
    assert Added(Dropped(l, b), a).reserved == Dropped(Added(l, a), b).reserved;
    assert Added(Dropped(l, b), a).mappings == Dropped(Added(l, a), b).mappings;
  }

  lemma TotalPush(base: Ledger, s: seq<Asset>, a: Asset)
    ensures Total(base, s + [a]) == Added(Total(base, s), a)
    ensures AllFresh(base, s + [a]) <==> AllFresh(base, s) && Fresh(Total(base, s), a)
  {
    assert (s + [a])[..|s|] == s;
  }

  lemma HasStill(l: Ledger, a: Asset, b: Asset)
    requires Fresh(l, a) && Has(l, b)
    ensures Has(Added(l, a), b)
  {
  }

  /** Every buffer keeps its assets while others come. */
  lemma {:induction false} HasAll(base: Ledger, s: seq<Asset>, i: nat)
    requires AllFresh(base, s) && i < |s|
    ensures Has(Total(base, s), s[i])
    decreases |s|
  {
    var p, a := s[..|s| - 1], s[|s| - 1];
    if i < |s| - 1 {
      HasAll(base, p, i);
      assert p[i] == s[i];
      HasStill(Total(base, p), a, s[i]);
    }
  }

  /** Leaving out an element before the last one. */
  lemma WithoutAt<T>(p: seq<T>, a: T, i: nat, s: seq<T>)
    requires s == p + [a] && i < |p|
    ensures s[..i] + s[i + 1..] == (p[..i] + p[i + 1..]) + [a]
  {
  }

  lemma WithoutLast<T>(p: seq<T>, a: T, s: seq<T>)
    requires s == p + [a]
    ensures s[..|p|] + s[|p| + 1..] == p
  {
  }

  lemma DropStep(base: Ledger, l: Ledger, a: Asset, b: Asset, q: seq<Asset>)
    requires Fresh(l, a) && Has(l, b) && AllFresh(base, q) && Total(base, q) == Dropped(l, b)
    ensures AllFresh(base, q + [a]) && Total(base, q + [a]) == Dropped(Added(l, a), b)
  {
    Commute(l, a, b);
    TotalPush(base, q, a);
  }

  /**
   * Taking back any one of them, in whatever order they came, leaves exactly
   * the others, all still there: so any order of creates and destroys balances.
   */
  lemma {:induction false} DropAny(base: Ledger, s: seq<Asset>, i: nat)
    requires AllFresh(base, s) && i < |s|
    ensures var t := s[..i] + s[i + 1..];
            AllFresh(base, t) && Total(base, t) == Dropped(Total(base, s), s[i])
    decreases |s|
  {
    var p, a := s[..|s| - 1], s[|s| - 1];
    assert s == p + [a];
    TotalPush(base, p, a);
    if i == |p| {
      WithoutLast(p, a, s);
      DropLast(Total(base, p), a);
    } else {
      DropAny(base, p, i);
      HasAll(base, p, i);
      WithoutAt(p, a, i, s);
      DropStep(base, Total(base, p), a, p[i], p[..i] + p[i + 1..]);
    }
  }

  /** A page belongs to an aligned block exactly when some byte of the block lies in it. */
  lemma PagesExactly(kaddr: nat, order: nat, p: nat)
    requires PageAligned(kaddr)
    ensures p in Pages(kaddr, order) <==>
            PAGE_SIZE * p < kaddr + PAGE_SIZE * Pow2(order) && kaddr < PAGE_SIZE * (p + 1)
  {
    var q: nat :| kaddr == PAGE_SIZE * q;
    PageOf(kaddr, q);
  }

  lemma PageOf(a: nat, p: nat)
    requires a == PAGE_SIZE * p
    ensures a / PAGE_SIZE == p
  {
  }
}
