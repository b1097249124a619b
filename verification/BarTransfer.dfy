/**
 * The arithmetic of BAR reads and writes (pcieuni_rw_no_struct_exp.c): from a
 * file position and a byte count to a BAR, an offset and the number of bytes
 * to move, in the machine types of the source.
 */
module BarTransfer {
  import opened Common

  const TWO60: int := 0x1000_0000_0000_0000
  const TWO63: int := 0x8000_0000_0000_0000

  type Byte = b: int | 0 <= b < 256
  type Word = w: int | 0 <= w < 0x1_0000_0000

  datatype Errno = EFAULT | ERESTARTSYS

  datatype Result<+T> = Ok(value: T) | Err(error: Errno)

  /** One BAR of a device: mapped or not, the recorded resource bounds, and the words behind it. */
  datatype Bar = Bar(mapped: bool, base: Word, end: Word, words: seq<Word>)

  datatype Transfer = Transfer(bar: nat, offset: nat, barSize: nat, count: nat)

  /** Subtraction of two u32. */
  function Sub32(a: Word, b: Word): Word {
    if a >= b then a - b else a - b + TWO32
  }

  /** Addition of two u32. */
  function Add32(a: Word, b: Word): Word {
    if a + b < TWO32 then a + b else a + b - TWO32
  }

  /** barSizeInBytes: the resource end is inclusive, so this is the length minus one. */
  function SizeOf(b: Bar): Word {
    Sub32(b.end, b.base)
  }

  /** (virtualOffset >> 60) & 0x7 of a non-negative position. */
  function BarOf(pos: nat): nat {
    (pos / TWO60) % 8
  }

  /** virtualOffset & 0x0FFFFFFFFFFFFFFF of a non-negative position. */
  function OffsetOf(pos: nat): nat {
    pos % TWO60
  }

  /** PCIEUNI_BAR_OFFSETS */
  function BarBase(bar: nat): nat {
    bar * TWO60
  }

  /** checkAndCalculateTransferInformation; offset + count is a 64-bit sum and the result a 32-bit count. */
  function Check(sts: bool, bars: seq<Bar>, count: nat, pos: nat): Result<Transfer>
    requires |bars| == 6
  {
    if !sts then Err(EFAULT)
    else if pos % 4 != 0 then Err(EFAULT)
    else if count % 4 != 0 then Err(EFAULT)
    else if BarOf(pos) >= 6 then Err(EFAULT)
    else
      var bar, offset := bars[BarOf(pos)], OffsetOf(pos);
      if !bar.mapped then Err(EFAULT)
      else if offset > SizeOf(bar) then Err(EFAULT)
      else
        var n := if SizeOf(bar) < (offset + count) % TWO64 then SizeOf(bar) - offset else count;
        Ok(Transfer(BarOf(pos), offset, SizeOf(bar), n % TWO32))
  }

  /** A mapped BAR has 4 to 2^32 bytes, in whole words, and bounds recorded for that length. */
  predicate BarOk(b: Bar) {
    b.mapped ==> 1 <= |b.words| && 4 * |b.words| <= TWO32 && SizeOf(b) == 4 * |b.words| - 1
  }

  predicate BarsOk(bars: seq<Bar>) {
    |bars| == 6 && forall i :: 0 <= i < 6 ==> BarOk(bars[i])
  }

  /** The request the driver is meant to accept: word aligned, inside a BAR the device has. */
  predicate InBar(sts: bool, bars: seq<Bar>, count: nat, pos: nat)
    requires BarsOk(bars)
  {
    && sts && pos % 4 == 0 && count % 4 == 0
    && pos < BarBase(6) && bars[pos / TWO60].mapped && pos - BarBase(pos / TWO60) < 4 * |bars[pos / TWO60].words|
  }

  /** Recording a resource in two u32 keeps its length: any 64-bit resource of at most 2^32 bytes. */
  lemma RecordedSize(start: nat, end: nat, b: Bar)
    requires start <= end < TWO64 && end - start < TWO32
    requires b.base == start % TWO32 && b.end == end % TWO32
    ensures SizeOf(b) == end - start
  {
    var d := end / TWO32 - start / TWO32;
    assert b.end - b.base == (end - start) - d * TWO32;
    assert d == 0 || d == 1;
  }

  /** Decoding a BAR's base plus an offset gives back both, for every offset below 2^60. */
  lemma DecodeAddress(bar: nat, offset: nat)
    requires bar < 6 && offset < TWO60
    ensures BarBase(bar) == bar * 0x1000_0000_0000_0000
    ensures BarOf(BarBase(bar) + offset) == bar && OffsetOf(BarBase(bar) + offset) == offset
  {
  }

  /** Exactly the requests inside a BAR are accepted, and the count is cut at the BAR's last byte. */
  lemma CheckExact(sts: bool, bars: seq<Bar>, count: nat, pos: nat)
    requires BarsOk(bars) && count < TWO63 && pos < TWO63
    ensures Check(sts, bars, count, pos).Ok? <==> InBar(sts, bars, count, pos)
    ensures InBar(sts, bars, count, pos) ==>
              var t := Check(sts, bars, count, pos).value;
              t.bar == pos / TWO60 && t.offset == pos - BarBase(t.bar) && t.offset % 4 == 0
              && t.count == Min(count, 4 * |bars[t.bar].words| - 1 - t.offset)
  {
    DecodePosition(pos);
    NoWrap(OffsetOf(pos), count);
  }

  lemma DecodePosition(pos: nat)
    requires pos < TWO63
    ensures BarOf(pos) == pos / TWO60 < 8 && OffsetOf(pos) == pos - BarBase(pos / TWO60) < TWO60
    ensures pos % 4 == 0 ==> OffsetOf(pos) % 4 == 0
  {
  }

  lemma NoWrap(offset: nat, count: nat)
    requires offset < TWO60 && count < TWO63
    ensures (offset + count) % TWO64 == offset + count
  {
  }

  /** The bytes an accepted request moves when nothing faults. */
  function Moved(bars: seq<Bar>, count: nat, pos: nat): nat
    requires BarsOk(bars) && pos < BarBase(6) && pos - BarBase(pos / TWO60) <= 4 * |bars[pos / TWO60].words|
  {
    Min(count, 4 * |bars[pos / TWO60].words| - (pos - BarBase(pos / TWO60)))
  }

  // The word loop: for(n = 0; n < limit; n += 4) on a 32-bit counter.

  /** The counter after k rounds. */
  function Counter(k: nat): Word {
    (4 * k) % TWO32
  }

  /** The loop leaves at round k. */
  ghost predicate Leaves(limit: nat, k: nat) {
    Counter(k) >= limit && forall j :: 0 <= j < k ==> Counter(j) < limit
  }

  /** It ends exactly when the limit is at most 2^32 - 4, and then with the limit rounded up to words. */
  lemma LoopEnds(limit: nat)
    requires limit < TWO32
    ensures (exists k :: Leaves(limit, k)) <==> limit <= TWO32 - 4
    ensures limit <= TWO32 - 4 ==> Leaves(limit, (limit + 3) / 4) && Counter((limit + 3) / 4) == (limit + 3) / 4 * 4
  {
    if limit <= TWO32 - 4 {
      var k := (limit + 3) / 4;
      assert Leaves(limit, k);
    } else {
      forall k ensures Counter(k) < limit {
      }
    }
  }

  /** For an accepted request the loop ends, having moved min(count, length - offset) bytes ... */
  lemma RoundsUpExactly(sts: bool, bars: seq<Bar>, count: nat, pos: nat)
    requires BarsOk(bars) && count < TWO63 && pos < TWO63 && InBar(sts, bars, count, pos)
    ensures var limit := Check(sts, bars, count, pos).value.count;
            (limit + 3) / 4 * 4 == Moved(bars, count, pos)
  {
    CheckExact(sts, bars, count, pos);
    DecodePosition(pos);
    RoundUp(count, 4 * |bars[pos / TWO60].words| - OffsetOf(pos));
  }

  /** Cutting one byte before a word boundary and rounding up to words cuts at the boundary. */
  lemma RoundUp(count: nat, room: nat)
    requires count % 4 == 0 && room % 4 == 0 && room > 0
    ensures (Min(count, room - 1) + 3) / 4 * 4 == Min(count, room)
  {
    var c, r := count / 4, room / 4;
    assert count == 4 * c && room == 4 * r;
    if c < r {
      assert (4 * c + 3) / 4 == c;
    } else {
      assert (4 * r - 1 + 3) / 4 == r;
    }
  }

  /** ... unless a whole 4 GiB BAR is asked for at once, which no count below 2^32 does. */
  lemma EndsExactlyBelow4G(sts: bool, bars: seq<Bar>, count: nat, pos: nat)
    requires BarsOk(bars) && count < TWO63 && pos < TWO63 && InBar(sts, bars, count, pos)
    ensures (exists k :: Leaves(Check(sts, bars, count, pos).value.count, k)) <==> Moved(bars, count, pos) < TWO32
    ensures count < TWO32 ==> Moved(bars, count, pos) < TWO32
  {
    CheckExact(sts, bars, count, pos);
    var limit := Check(sts, bars, count, pos).value.count;
    RoundsUpExactly(sts, bars, count, pos);
    LoopEnds(limit);
  }
}
