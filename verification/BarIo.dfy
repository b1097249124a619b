/** BAR reads and writes word by word, and the slice copies they amount to. */
module BarIo {
  import opened Common
  import opened BarTransfer

  // Words as bytes.

  /** The four bytes copy_to_user takes from a u32. */
  function ToBytes(w: Word): (b: seq<Byte>)
    ensures |b| == 4
  {
    [w % 256, w / 256 % 256, w / 65536 % 256, w / 16777216]
  }

  /** The u32 copy_from_user fills with four bytes. */
  function FromBytes(b: seq<Byte>): Word
    requires |b| == 4
  {
    var b0: int, b1: int, b2: int, b3: int := b[0], b[1], b[2], b[3];
    b0 + 256 * b1 + 65536 * b2 + 16777216 * b3
  }

  lemma FromTo(w: Word)
    ensures FromBytes(ToBytes(w)) == w
  {
    var v: int := w;
    assert v / 256 / 256 == v / 65536 && v / 65536 / 256 == v / 16777216;
  }

  lemma ToFrom(b: seq<Byte>)
    requires |b| == 4
    ensures ToBytes(FromBytes(b)) == b
  {
    var b0: int, b1: int, b2: int, b3: int := b[0], b[1], b[2], b[3];
    var w: int := FromBytes(b);
    Peel(b1 + 256 * b2 + 65536 * b3, b0);
    Peel(b2 + 256 * b3, b1);
    Peel(b3, b2);
    assert w / 65536 == w / 256 / 256 && w / 16777216 == w / 65536 / 256;
  }

  /** The lowest base-256 digit of a number with digit r in front of q. */
  lemma Peel(q: nat, r: Byte)
    ensures (256 * q + r) % 256 == r && (256 * q + r) / 256 == q
  {
  }

  /** A BAR as user space sees it. */
  function Bytes(words: seq<Word>): (b: seq<Byte>)
    ensures |b| == 4 * |words|
  {
    if words == [] then [] else ToBytes(words[0]) + Bytes(words[1..])
  }

  lemma {:induction false} BytesAt(words: seq<Word>, i: nat)
    requires i < |words|
    ensures Bytes(words)[4 * i..4 * i + 4] == ToBytes(words[i])
  {
    if i > 0 {
      BytesAt(words[1..], i - 1);
      var t := Bytes(words[1..]);
      assert Bytes(words)[4 * i..4 * i + 4] == t[4 * (i - 1)..4 * (i - 1) + 4];
    }
  }

  // The loops.

  /**
   * pcieuni_read_no_struct_exp on a device with this status and these BARs.
   * The user memory accepts words before word number fault, and the first
   * `partial` bytes of that one; a fault beyond the transfer never happens.
   */
  method Read(sts: bool, bars: seq<Bar>, buf: array<Byte>, count: nat, pos: nat, interrupted: bool, fault: nat, partial: nat)
    returns (ret: Result<nat>, pos': nat)
    requires BarsOk(bars) && pos < TWO63 && count < TWO32
    requires partial < 4 && Min(count, 4 * fault + partial) <= buf.Length
    modifies buf
    ensures !InBar(sts, bars, count, pos) ==> ret == Err(EFAULT)
    ensures InBar(sts, bars, count, pos) && interrupted ==> ret == Err(ERESTARTSYS)
    ensures ret.Err? ==> pos' == pos && buf[..] == old(buf[..])
    ensures InBar(sts, bars, count, pos) && !interrupted ==>
              var bar, total := pos / TWO60, Moved(bars, count, pos);
              var n, off := Min(total, 4 * fault), pos - BarBase(bar);
              var m := if 4 * fault < total then n + partial else n;
              ret == Ok(n) && pos' == pos + n
              && m <= buf.Length && Filled(buf[..], old(buf[..]), Bytes(bars[bar].words), off, m)
              && Spelled(buf[..], bars[bar].words, off / 4, m)
  {
    CheckExact(sts, bars, count, pos);
    var c := Check(sts, bars, count, pos);
    pos' := pos;
    if c.Err? {
      return Err(c.error), pos;
    }
    if interrupted {
      return Err(ERESTARTSYS), pos;
    }
    var t := c.value;
    RoundsUpExactly(sts, bars, count, pos);
    EndsExactlyBelow4G(sts, bars, count, pos);
    ghost var first, rounds := WordsMoved(sts, bars, count, pos);
    Quarter(t.offset, first);
    var n := ReadWords(bars[t.bar].words, t.offset, t.count, buf, fault, partial, first, rounds);
    return Ok(n), pos + n;
  }

  /** The word loop of the read; its 32-bit counter stops at the limit rounded up to words. */
  method ReadWords(words: seq<Word>, offset: nat, limit: nat, buf: array<Byte>, fault: nat, partial: nat,
                   ghost first: nat, ghost rounds: nat)
    returns (n: nat)
    requires offset == 4 * first && limit <= 4 * rounds < limit + 4 && 4 * rounds < TWO32
    requires first + rounds <= |words|
    requires partial < 4 && (if fault < rounds then 4 * fault + partial else 4 * rounds) <= buf.Length
    modifies buf
    ensures n == 4 * Min(rounds, fault)
    ensures var m := if fault < rounds then n + partial else n;
            Filled(buf[..], old(buf[..]), Bytes(words), offset, m) && Spelled(buf[..], words, first, m)
  {
    ghost var start, b := buf[..], Bytes(words);
    n := 0;
    ghost var k := 0;
    var faulted := false;
    while n < limit && !faulted
      invariant n == 4 * k && k <= rounds && k <= fault && (faulted ==> k == fault < rounds)
      invariant n + (if faulted then partial else 0) <= buf.Length
      invariant Filled(buf[..], start, b, offset, n + if faulted then partial else 0)
      decreases !faulted, rounds - k
    {
      faulted := ReadWord(words, offset, n, buf, fault, partial, start, first + k, b);
      if !faulted {
        n, k := Add32(n, 4), k + 1;
      }
    }
    FilledSpells(buf[..], start, words, first, n + if faulted then partial else 0);
  }

  /** One round: ioread32, then copy_to_user, which may fault after some bytes. */
  method ReadWord(words: seq<Word>, offset: nat, n: nat, buf: array<Byte>, fault: nat, partial: nat,
                  ghost start: seq<Byte>, ghost i: nat, ghost b: seq<Byte>)
    returns (faulted: bool)
    requires offset + n == 4 * i && i < |words| && n % 4 == 0 && partial < 4
    requires n + (if n == 4 * fault then partial else 4) <= |start| == buf.Length
    requires b == Bytes(words) && Filled(buf[..], start, b, offset, n)
    modifies buf
    ensures faulted <==> n == 4 * fault
    ensures Filled(buf[..], start, b, offset, n + if faulted then partial else 4)
  {
    var w := words[(offset + n) / 4];
    BytesAt(words, i);
    faulted := n / 4 == fault;
    var k := if faulted then partial else 4;
    ghost var before := buf[..];
    CopyOut(buf, n, w, k);
    FillMore(before, buf[..], start, b, offset, n, k);
  }

  /** copy_to_user of the first k bytes of a word. */
  method CopyOut(buf: array<Byte>, at: nat, w: Word, k: nat)
    requires k <= 4 && at + k <= buf.Length
    modifies buf
    ensures forall j :: 0 <= j < buf.Length ==>
              buf[j] == if at <= j < at + k then ToBytes(w)[j - at] else old(buf[j])
  {
    var b := ToBytes(w);
    for i := 0 to k
      invariant forall j :: 0 <= j < buf.Length ==> buf[j] == if at <= j < at + i then b[j - at] else old(buf[j])
    {
      buf[at + i] := b[i];
    }
  }

  /**
   * pcieuni_write_no_struct_exp on a device with this status and these BARs.
   * The user memory can be read before word number fault; a fault beyond the
   * transfer never happens.
   */
  method Write(sts: bool, bars: seq<Bar>, data: seq<Byte>, count: nat, pos: nat, interrupted: bool, fault: nat)
    returns (ret: Result<nat>, pos': nat, bars': seq<Bar>)
    requires BarsOk(bars) && pos < TWO63 && count < TWO32
    requires Min(count, 4 * fault) <= |data|
    ensures BarsOk(bars')
    ensures !InBar(sts, bars, count, pos) ==> ret == Err(EFAULT)
    ensures InBar(sts, bars, count, pos) && interrupted ==> ret == Err(ERESTARTSYS)
    ensures ret.Err? ==> pos' == pos && bars' == bars
    ensures InBar(sts, bars, count, pos) && !interrupted ==>
              var bar, n := pos / TWO60, Min(Moved(bars, count, pos), 4 * fault);
              var off := pos - BarBase(bar);
              ret == Ok(n) && pos' == pos + n
              && bars' == bars[bar := bars[bar].(words := bars'[bar].words)]
              && Written(bars'[bar].words, bars[bar].words, data, off / 4, n / 4)
              && Composed(bars'[bar].words, data, off / 4, n / 4)
  {
    CheckExact(sts, bars, count, pos);
    var c := Check(sts, bars, count, pos);
    if c.Err? {
      return Err(c.error), pos, bars;
    }
    if interrupted {
      return Err(ERESTARTSYS), pos, bars;
    }
    var t := c.value;
    RoundsUpExactly(sts, bars, count, pos);
    EndsExactlyBelow4G(sts, bars, count, pos);
    var n, words := WriteWords(bars[t.bar].words, t.offset, t.count, data, fault, t.offset / 4, Moved(bars, count, pos) / 4);
    return Ok(n), pos + n, bars[t.bar := bars[t.bar].(words := words)];
  }

  /** The word loop of the write. */
  method WriteWords(words: seq<Word>, offset: nat, limit: nat, data: seq<Byte>, fault: nat, ghost first: nat, ghost rounds: nat)
    returns (n: nat, now: seq<Word>)
    requires offset == 4 * first && limit <= 4 * rounds < limit + 4 && 4 * rounds < TWO32
    requires first + rounds <= |words| && 4 * Min(rounds, fault) <= |data|
    ensures n == 4 * Min(rounds, fault)
    ensures Written(now, words, data, first, n / 4) && Composed(now, data, first, n / 4)
  {
    ghost var k := 0;
    n, now := 0, words;
    while n < limit
      invariant n == 4 * k && k <= rounds && k <= fault
      invariant Written(now, words, data, first, k)
      decreases rounds - k
    {
      if n / 4 == fault {
        break;
      }
      var word := FromBytes(data[n..n + 4]);
      var i := (offset + n) / 4;
      assert i == first + k;
      now := now[i := word];
      n, k := Add32(n, 4), k + 1;
    }
    Quarter(n, k);
    WrittenComposes(now, words, data, first, k);
  }

  /** The user buffer now: its first m bytes come from position offset of b, the others are as at the start. */
  ghost predicate Filled(now: seq<Byte>, start: seq<Byte>, b: seq<Byte>, offset: nat, m: nat) {
    && |now| == |start| && m <= |start| && offset + m <= |b|
    && (forall i :: 0 <= i < |start| ==> now[i] == if i < m then b[offset + i] else start[i])
  }

  lemma FillMore(before: seq<Byte>, now: seq<Byte>, start: seq<Byte>, b: seq<Byte>, offset: nat, n: nat, k: nat)
    requires Filled(before, start, b, offset, n) && |now| == |before|
    requires n + k <= |start| && offset + n + 4 <= |b| && k <= 4
    requires forall j :: 0 <= j < |now| ==>
               now[j] == if n <= j < n + k then b[offset + n..offset + n + 4][j - n] else before[j]
    ensures Filled(now, start, b, offset, n + k)
  {
  }

  /** The words now: k of them from first on come from data, the others are as at the start. */
  ghost predicate Written(now: seq<Word>, start: seq<Word>, data: seq<Byte>, first: nat, k: nat) {
    && |now| == |start| && first + k <= |start| && 4 * k <= |data|
    && (forall i :: 0 <= i < |start| ==>
          now[i] == if first <= i < first + k then FromBytes(data[4 * (i - first)..4 * (i - first) + 4]) else start[i])
  }

  // The byte order.

  /** The first m bytes are those of the words from first on, each word lowest byte first. */
  ghost predicate Spelled(now: seq<Byte>, words: seq<Word>, first: nat, m: nat) {
    m <= |now| &&
    forall i {:trigger SpelledAt(now, words, first, m, i)} :: 0 <= i && first + i < |words| ==>
      SpelledAt(now, words, first, m, i)
  }

  ghost predicate SpelledAt(now: seq<Byte>, words: seq<Word>, first: nat, m: nat, i: nat)
    requires m <= |now| && first + i < |words|
  {
    var w, at := words[first + i], 4 * i;
    && (at < m ==> now[at] == w % 256)
    && (at + 1 < m ==> now[at + 1] == w / 256 % 256)
    && (at + 2 < m ==> now[at + 2] == w / 65536 % 256)
    && (at + 3 < m ==> now[at + 3] == w / 16777216 % 256)
  }

  /** The k words from first on are made of four bytes each, the lowest first. */
  ghost predicate Composed(now: seq<Word>, data: seq<Byte>, first: nat, k: nat) {
    && first + k <= |now| && 4 * k <= |data|
    && (forall i {:trigger ComposedAt(now, data, first, i)} :: 0 <= i < k ==> ComposedAt(now, data, first, i))
  }

  ghost predicate ComposedAt(now: seq<Word>, data: seq<Byte>, first: nat, i: nat)
    requires first + i < |now| && 4 * i + 4 <= |data|
  {
    var d0: int, d1: int, d2: int, d3: int := data[4 * i], data[4 * i + 1], data[4 * i + 2], data[4 * i + 3];
    now[first + i] == d0 + 256 * d1 + 65536 * d2 + 16777216 * d3
  }

  lemma FilledSpells(now: seq<Byte>, start: seq<Byte>, words: seq<Word>, first: nat, m: nat)
    requires Filled(now, start, Bytes(words), 4 * first, m)
    ensures Spelled(now, words, first, m)
  {
    forall i | 0 <= i && first + i < |words| ensures SpelledAt(now, words, first, m, i) {
      BytesAt(words, first + i);
      SpellsFour(Bytes(words), 4 * first + 4 * i, words[first + i]);
      FilledFour(now, start, Bytes(words), 4 * first, m, 4 * i);
    }
  }

  lemma FilledFour(now: seq<Byte>, start: seq<Byte>, b: seq<Byte>, offset: nat, m: nat, at: nat)
    requires Filled(now, start, b, offset, m)
    ensures at < m ==> now[at] == b[offset + at]
    ensures at + 1 < m ==> now[at + 1] == b[offset + at + 1]
    ensures at + 2 < m ==> now[at + 2] == b[offset + at + 2]
    ensures at + 3 < m ==> now[at + 3] == b[offset + at + 3]
  {
  }

  lemma SpellsFour(b: seq<Byte>, at: nat, w: Word)
    requires at + 4 <= |b| && b[at..at + 4] == ToBytes(w)
    ensures b[at] == w % 256 && b[at + 1] == w / 256 % 256
    ensures b[at + 2] == w / 65536 % 256 && b[at + 3] == w / 16777216 % 256
  {
    var d := b[at..at + 4];
    assert d[0] == b[at] && d[1] == b[at + 1] && d[2] == b[at + 2] && d[3] == b[at + 3];
  }

  lemma WrittenComposes(now: seq<Word>, start: seq<Word>, data: seq<Byte>, first: nat, k: nat)
    requires Written(now, start, data, first, k)
    ensures Composed(now, data, first, k)
  {
    forall i | 0 <= i < k ensures ComposedAt(now, data, first, i) {
      assert now[first + i] == FromBytes(data[4 * i..4 * i + 4]);
    }
  }

  /** The words after k of them from first on were written. */
  function Overwritten(words: seq<Word>, data: seq<Byte>, first: nat, k: nat): (now: seq<Word>)
    ensures |now| == |words|
    ensures forall i :: 0 <= i < |words| ==> now[i] == Overwrite(words, data, first, k, i)
  {
    seq(|words|, i requires 0 <= i < |words| => Overwrite(words, data, first, k, i))
  }

  function Overwrite(words: seq<Word>, data: seq<Byte>, first: nat, k: nat, i: nat): Word
    requires i < |words|
  {
    if first <= i < first + k && 4 * (i - first) + 4 <= |data|
    then FromBytes(data[4 * (i - first)..4 * (i - first) + 4]) else words[i]
  }

  lemma WrittenIs(now: seq<Word>, start: seq<Word>, data: seq<Byte>, first: nat, k: nat)
    requires Written(now, start, data, first, k)
    ensures now == Overwritten(start, data, first, k)
  {
  }

  /** What was written is what the bytes of the BAR then are. */
  lemma WrittenByte(now: seq<Word>, start: seq<Word>, data: seq<Byte>, first: nat, k: nat, i: nat, r: nat)
    requires Written(now, start, data, first, k) && i < k && r < 4
    ensures Bytes(now)[4 * (first + i) + r] == data[4 * i + r]
  {
    var d := data[4 * i..4 * i + 4];
    assert now[first + i] == FromBytes(d);
    ToFrom(d);
    BytesAt(now, first + i);
    assert Bytes(now)[4 * (first + i)..4 * (first + i) + 4][r] == d[r];
  }

  /** On a memory-like BAR a read of what was written at the same position returns it. */
  method WriteThenRead(sts: bool, bars: seq<Bar>, data: seq<Byte>, out: array<Byte>, count: nat, pos: nat)
    returns (n: nat, bars': seq<Bar>)
    requires BarsOk(bars) && pos < TWO63 && count < TWO32 && InBar(sts, bars, count, pos)
    requires count <= |data| && count <= out.Length
    modifies out
    ensures n == Moved(bars, count, pos) <= out.Length && out[..n] == data[..n]
    ensures |bars'| == 6 &&
            var bar := pos / TWO60;
            Written(bars'[bar].words, bars[bar].words, data, (pos - BarBase(bar)) / 4, n / 4)
    ensures forall i :: 0 <= i < 6 && i != pos / TWO60 ==> bars'[i] == bars[i]
  {
    ghost var bar := pos / TWO60;
    ghost var first, k := WordsMoved(sts, bars, count, pos);
    bars' := WriteAll(sts, bars, data, count, pos, first, k);
    SameShape(sts, bars, bars', count, pos);
    n := ReadAll(sts, bars', out, count, pos, first, k);
    Echo(bars'[bar].words, bars[bar].words, data, first, k, out[..]);
    Quarter(pos - BarBase(bar), first);
    Quarter(n, k);
  }

  lemma Quarter(n: nat, k: nat)
    requires n == 4 * k
    ensures n / 4 == k
  {
  }

  /** A read without faults. */
  method ReadAll(sts: bool, bars: seq<Bar>, out: array<Byte>, count: nat, pos: nat, ghost first: nat, ghost k: nat)
    returns (n: nat)
    requires BarsOk(bars) && pos < TWO63 && count < TWO32 && InBar(sts, bars, count, pos) && count <= out.Length
    requires pos == BarBase(pos / TWO60) + 4 * first && Moved(bars, count, pos) == 4 * k <= count
    modifies out
    ensures n == 4 * k && 4 * (first + k) <= |Bytes(bars[pos / TWO60].words)|
    ensures forall j :: 0 <= j < n ==> out[j] == Bytes(bars[pos / TWO60].words)[4 * first + j]
  {
    var r, _ := Read(sts, bars, out, count, pos, false, count, 0);
    n := r.value;
  }

  /** A write without faults. */
  method WriteAll(sts: bool, bars: seq<Bar>, data: seq<Byte>, count: nat, pos: nat, ghost first: nat, ghost k: nat)
    returns (bars': seq<Bar>)
    requires BarsOk(bars) && pos < TWO63 && count < TWO32 && InBar(sts, bars, count, pos) && count <= |data|
    requires pos == BarBase(pos / TWO60) + 4 * first && Moved(bars, count, pos) == 4 * k <= count
    ensures BarsOk(bars') && bars' == bars[pos / TWO60 := bars[pos / TWO60].(words := bars'[pos / TWO60].words)]
    ensures Written(bars'[pos / TWO60].words, bars[pos / TWO60].words, data, first, k)
  {
    var w, _, now := Write(sts, bars, data, count, pos, false, count);
    bars' := now;
  }

  /** Other words in a BAR do not change which requests are accepted. */
  lemma SameShape(sts: bool, bars: seq<Bar>, bars': seq<Bar>, count: nat, pos: nat)
    requires BarsOk(bars) && BarsOk(bars') && InBar(sts, bars, count, pos)
    requires var bar := pos / TWO60;
             |bars'[bar].words| == |bars[bar].words| && bars'[bar].mapped == bars[bar].mapped
    ensures InBar(sts, bars', count, pos) && Moved(bars', count, pos) == Moved(bars, count, pos)
  {
  }

  /** An accepted request in words. */
  lemma WordsMoved(sts: bool, bars: seq<Bar>, count: nat, pos: nat) returns (first: nat, k: nat)
    requires BarsOk(bars) && pos < TWO63 && count < TWO32 && InBar(sts, bars, count, pos)
    ensures pos == BarBase(pos / TWO60) + 4 * first && Moved(bars, count, pos) == 4 * k <= count
  {
    DecodePosition(pos);
    first := OffsetOf(pos) / 4;
    k := Min(count / 4, |bars[pos / TWO60].words| - first);
  }

  lemma Echo(now: seq<Word>, start: seq<Word>, data: seq<Byte>, first: nat, k: nat, out: seq<Byte>)
    requires Written(now, start, data, first, k) && 4 * k <= |out|
    requires forall j :: 0 <= j < 4 * k ==> out[j] == Bytes(now)[4 * first + j]
    ensures out[..4 * k] == data[..4 * k]
  {
    forall j | 0 <= j < 4 * k ensures out[j] == data[j] {
      WrittenByte(now, start, data, first, k, j / 4, j % 4);
    }
  }

  // Chunking.

  /** What a read without faults returns. */
  function ReadAt(sts: bool, bars: seq<Bar>, count: nat, pos: nat): Result<seq<Byte>>
    requires BarsOk(bars)
  {
    if InBar(sts, bars, count, pos) then
      var bar := pos / TWO60;
      var off := pos - BarBase(bar);
      Ok(Bytes(bars[bar].words)[off..off + Moved(bars, count, pos)])
    else Err(EFAULT)
  }

  /** A read that fills the buffer with what is asked for leaves those bytes in it. */
  lemma FilledRead(sts: bool, bars: seq<Bar>, count: nat, pos: nat, now: seq<Byte>, start: seq<Byte>)
    requires BarsOk(bars) && InBar(sts, bars, count, pos)
    requires var bar := pos / TWO60;
             Filled(now, start, Bytes(bars[bar].words), pos - BarBase(bar), Moved(bars, count, pos))
    ensures ReadAt(sts, bars, count, pos) == Ok(now[..Moved(bars, count, pos)])
  {
    var n := Moved(bars, count, pos);
    var b, off := Bytes(bars[pos / TWO60].words), pos - BarBase(pos / TWO60);
    assert now[..n] == b[off..off + n];
  }

  /** Reads one after the other, each from where the last one left the position. */
  function ReadMany(sts: bool, bars: seq<Bar>, counts: seq<nat>, pos: nat): Result<(seq<Byte>, nat)>
    requires BarsOk(bars)
  {
    if counts == [] then Ok(([], pos))
    else
      match ReadAt(sts, bars, counts[0], pos)
      case Err(e) => Err(e)
      case Ok(head) => PrependTo(head, ReadMany(sts, bars, counts[1..], pos + |head|))
  }

  function PrependTo(head: seq<Byte>, tail: Result<(seq<Byte>, nat)>): Result<(seq<Byte>, nat)> {
    match tail
    case Err(e) => Err(e)
    case Ok(t) => Ok((head + t.0, t.1))
  }

  function Prepend(head: seq<Byte>, tail: Result<seq<Byte>>): Result<seq<Byte>> {
    match tail
    case Err(e) => Err(e)
    case Ok(t) => Ok(head + t)
  }

  /** A read result paired with the position it leaves. */
  function WithPosition(r: Result<seq<Byte>>, pos: nat): Result<(seq<Byte>, nat)> {
    match r
    case Err(e) => Err(e)
    case Ok(b) => Ok((b, pos + |b|))
  }

  lemma PrependCommutes(head: seq<Byte>, tail: Result<seq<Byte>>, pos: nat)
    ensures PrependTo(head, WithPosition(tail, pos + |head|)) == WithPosition(Prepend(head, tail), pos)
  {
    match tail
    case Err(_) =>
    case Ok(t) => assert |head + t| == |head| + |t|;
  }

  /** Every read starts before the end of the BAR. */
  predicate StaysInside(counts: seq<nat>, off: nat, length: nat) {
    counts == [] || (off < length && StaysInside(counts[1..], off + counts[0], length))
  }

  predicate Aligned(counts: seq<nat>) {
    forall i :: 0 <= i < |counts| ==> counts[i] % 4 == 0
  }

  lemma {:induction false} SumAligned(counts: seq<nat>)
    requires Aligned(counts)
    ensures Sum(counts) % 4 == 0
  {
    if counts != [] {
      SumAligned(counts[1..]);
    }
  }

  /** The bytes a read takes from a BAR with contents b. */
  function Cut(b: seq<Byte>, count: nat, off: nat): seq<Byte>
    requires off <= |b|
  {
    b[off..off + Min(count, |b| - off)]
  }

  /** An aligned read at a BAR's base plus an offset. */
  lemma ReadAtBar(bars: seq<Bar>, bar: nat, off: nat, pos: nat, count: nat)
    requires BarsOk(bars) && bar < 6 && bars[bar].mapped && off % 4 == 0 && count % 4 == 0
    requires off <= 4 * |bars[bar].words| && pos == BarBase(bar) + off
    ensures ReadAt(true, bars, count, pos) ==
            if off < 4 * |bars[bar].words| then Ok(Cut(Bytes(bars[bar].words), count, off)) else Err(EFAULT)
  {
    assert BarOk(bars[bar]);
    BaseAligned(bar, off, pos);
    assert InBar(true, bars, count, pos) <==> off < 4 * |bars[bar].words|;
  }

  lemma BaseAligned(bar: nat, off: nat, pos: nat)
    requires bar < 6 && off < TWO60 && off % 4 == 0 && pos == BarBase(bar) + off
    ensures pos / TWO60 == bar && pos % 4 == 0 && pos < BarBase(6)
  {
    assert pos == 4 * (bar * (TWO60 / 4) + off / 4);
  }

  /** The same reads on the contents of the BAR alone. */
  function Many(b: seq<Byte>, counts: seq<nat>, off: nat): Result<seq<Byte>>
    requires off <= |b|
  {
    if counts == [] then Ok([])
    else if off == |b| then Err(EFAULT)
    else
      var head := Cut(b, counts[0], off);
      Prepend(head, Many(b, counts[1..], off + |head|))
  }

  lemma {:induction false} ReadManyBar(bars: seq<Bar>, counts: seq<nat>, bar: nat, off: nat, pos: nat, b: seq<Byte>)
    requires BarsOk(bars) && bar < 6 && bars[bar].mapped && off % 4 == 0 && Aligned(counts)
    requires b == Bytes(bars[bar].words) && off <= |b| && pos == BarBase(bar) + off
    ensures ReadMany(true, bars, counts, pos) == WithPosition(Many(b, counts, off), pos)
    decreases |counts|
  {
    if counts != [] {
      ReadAtBar(bars, bar, off, pos, counts[0]);
      if off < |b| {
        var head, rest := Cut(b, counts[0], off), counts[1..];
        CutAligned(b, |bars[bar].words|, counts[0], off);
        var off', pos' := off + |head|, pos + |head|;
        ReadManyBar(bars, rest, bar, off', pos', b);
        ReadManyStep(bars, counts, pos, head, rest, pos', Many(b, rest, off'));
      } else {
        ReadManyFails(bars, counts, pos);
      }
    }
  }

  lemma ReadManyStep(bars: seq<Bar>, counts: seq<nat>, pos: nat, head: seq<Byte>, rest: seq<nat>, pos': nat,
                     tail: Result<seq<Byte>>)
    requires BarsOk(bars) && counts != [] && ReadAt(true, bars, counts[0], pos) == Ok(head)
    requires rest == counts[1..] && pos' == pos + |head|
    requires ReadMany(true, bars, rest, pos') == WithPosition(tail, pos')
    ensures ReadMany(true, bars, counts, pos) == WithPosition(Prepend(head, tail), pos)
  {
    PrependCommutes(head, tail, pos);
  }

  lemma ReadManyFails(bars: seq<Bar>, counts: seq<nat>, pos: nat)
    requires BarsOk(bars) && counts != [] && ReadAt(true, bars, counts[0], pos) == Err(EFAULT)
    ensures ReadMany(true, bars, counts, pos) == Err(EFAULT)
  {
  }

  /** A cut of whole words ends at a whole word. */
  lemma CutAligned(b: seq<Byte>, n: nat, count: nat, off: nat)
    requires count % 4 == 0 && off % 4 == 0 && off <= |b| == 4 * n
    ensures var end := off + |Cut(b, count, off)|; end % 4 == 0 && end <= |b|
  {
    var c, o := count / 4, off / 4;
    MultipleOf4(count, c);
    MultipleOf4(off, o);
    CutWords(b, n, c, o);
    Fourfold(o + Min(c, n - o));
  }

  lemma CutWords(b: seq<Byte>, n: nat, c: nat, o: nat)
    requires o <= n && |b| == 4 * n
    ensures 4 * o + |Cut(b, 4 * c, 4 * o)| == 4 * (o + Min(c, n - o))
  {
  }

  lemma MultipleOf4(n: nat, k: nat)
    requires n % 4 == 0 && k == n / 4
    ensures n == 4 * k
  {
  }

  lemma Fourfold(k: nat)
    ensures (4 * k) % 4 == 0
  {
  }

  lemma CutJoins(b: seq<Byte>, c: nat, d: nat, off: nat)
    requires off + c < |b|
    ensures Cut(b, c, off) + Cut(b, d, off + c) == Cut(b, c + d, off)
  {
  }

  lemma {:induction false} ManyExact(b: seq<Byte>, counts: seq<nat>, off: nat)
    requires off <= |b|
    ensures Many(b, counts, off) ==
            if StaysInside(counts, off, |b|) then Ok(Cut(b, Sum(counts), off)) else Err(EFAULT)
    decreases |counts|
  {
    if counts == [] {
      assert Cut(b, 0, off) == [];
    } else if off < |b| {
      var c, rest := counts[0], counts[1..];
      var n := |Cut(b, c, off)|;
      ManyExact(b, rest, off + n);
      if off + c < |b| {
        CutJoins(b, c, Sum(rest), off);
      } else if rest == [] {
        assert Sum(counts) == c && Cut(b, c, off) + [] == Cut(b, c, off);
      } else {
        assert !StaysInside(rest, |b|, |b|) && !StaysInside(rest, off + c, |b|);
      }
    }
  }

  /**
   * Aligned reads all succeed exactly when each starts before the BAR's end,
   * and then yield the bytes and the position of one read of the total size;
   * the position stays in the BAR's 2^60 window.
   */
  lemma Chunking(bars: seq<Bar>, counts: seq<nat>, bar: nat, off: nat)
    requires BarsOk(bars) && bar < 6 && bars[bar].mapped && off % 4 == 0 && Aligned(counts)
    requires counts != [] && off <= 4 * |bars[bar].words| && Sum(counts) < TWO32
    ensures var all := ReadMany(true, bars, counts, BarBase(bar) + off);
            && (all.Ok? <==> StaysInside(counts, off, 4 * |bars[bar].words|))
            && (all.Ok? ==>
                  && ReadAt(true, bars, Sum(counts), BarBase(bar) + off) == Ok(all.value.0)
                  && all.value.1 == BarBase(bar) + off + |all.value.0|
                  && all.value.1 < BarBase(bar) + TWO60)
  {
    assert BarOk(bars[bar]);
    SumAligned(counts);
    ReadAtBar(bars, bar, off, BarBase(bar) + off, Sum(counts));
    ReadManyBar(bars, counts, bar, off, BarBase(bar) + off, Bytes(bars[bar].words));
    ManyExact(Bytes(bars[bar].words), counts, off);
  }

  /** One read without faults, into a buffer of its own. */
  method ReadOnce(sts: bool, bars: seq<Bar>, count: nat, pos: nat) returns (r: Result<seq<Byte>>, pos': nat)
    requires BarsOk(bars) && pos < TWO63 && count < TWO32
    ensures r == ReadAt(sts, bars, count, pos) && pos' == if r.Ok? then pos + |r.value| else pos
  {
    var buf := new Byte[count];
    ghost var start := buf[..];
    var ret, end := Read(sts, bars, buf, count, pos, false, count, 0);
    if ret.Err? {
      return Err(ret.error), end;
    }
    FilledRead(sts, bars, count, pos, buf[..], start);
    return Ok(buf[..ret.value]), end;
  }

  /** The reads of a program one after the other, each on the position the last one left. */
  method ReadChunks(sts: bool, bars: seq<Bar>, counts: seq<nat>, pos: nat) returns (r: Result<(seq<Byte>, nat)>)
    requires BarsOk(bars) && pos < BarBase(6) && forall i :: 0 <= i < |counts| ==> counts[i] < TWO32
    ensures r == ReadMany(sts, bars, counts, pos)
  {
    var out: seq<Byte>, at: nat := [], pos;
    ghost var all := ReadMany(sts, bars, counts, pos);
    assert counts[0..] == counts;
    PrependNone(all);
    for i := 0 to |counts|
      invariant at < TWO63 && all == PrependTo(out, ReadMany(sts, bars, counts[i..], at))
    {
      var part, next := ReadOnce(sts, bars, counts[i], at);
      ManyNext(sts, bars, counts, i, at, out);
      if part.Err? {
        return Err(part.error);
      }
      at := next;
      out := out + part.value;
    }
    ManyDone(sts, bars, counts, at, out);
    return Ok((out, at));
  }

  /** The next of several reads. */
  lemma ManyNext(sts: bool, bars: seq<Bar>, counts: seq<nat>, i: nat, at: nat, out: seq<Byte>)
    requires BarsOk(bars) && i < |counts|
    ensures var r, rest := ReadAt(sts, bars, counts[i], at), PrependTo(out, ReadMany(sts, bars, counts[i..], at));
            && (r.Err? ==> rest == Err(r.error))
            && (r.Ok? ==> at + |r.value| < TWO63
                          && rest == PrependTo(out + r.value, ReadMany(sts, bars, counts[i + 1..], at + |r.value|)))
  {
    var r := ReadAt(sts, bars, counts[i], at);
    assert counts[i..][0] == counts[i] && counts[i..][1..] == counts[i + 1..];
    if r.Ok? {
      assert BarOk(bars[at / TWO60]);
      PrependTwice(out, r.value, ReadMany(sts, bars, counts[i + 1..], at + |r.value|));
    }
  }

  lemma ManyDone(sts: bool, bars: seq<Bar>, counts: seq<nat>, at: nat, out: seq<Byte>)
    requires BarsOk(bars)
    ensures PrependTo(out, ReadMany(sts, bars, counts[|counts|..], at)) == Ok((out, at))
  {
    assert counts[|counts|..] == [] && out + [] == out;
  }

  lemma PrependNone(r: Result<(seq<Byte>, nat)>)
    ensures PrependTo([], r) == r
  {
    if r.Ok? {
      assert [] + r.value.0 == r.value.0;
    }
  }

  lemma PrependTwice(a: seq<Byte>, b: seq<Byte>, r: Result<(seq<Byte>, nat)>)
    ensures PrependTo(a, PrependTo(b, r)) == PrependTo(a + b, r)
  {
    if r.Ok? {
      assert a + (b + r.value.0) == a + b + r.value.0;
    }
  }

  /** Chunked reads and one read of the total size, as the driver performs them. */
  method ReadBothWays(bars: seq<Bar>, counts: seq<nat>, bar: nat, off: nat)
    returns (chunks: Result<(seq<Byte>, nat)>, whole: Result<seq<Byte>>, end: nat)
    requires BarsOk(bars) && bar < 6 && bars[bar].mapped && off % 4 == 0 && Aligned(counts)
    requires counts != [] && off <= 4 * |bars[bar].words| && Sum(counts) < TWO32
    ensures chunks.Ok? <==> StaysInside(counts, off, 4 * |bars[bar].words|)
    ensures chunks.Ok? ==> whole == Ok(chunks.value.0) && end == chunks.value.1 < BarBase(bar) + TWO60
  {
    assert BarOk(bars[bar]);
    Summands(counts);
    chunks := ReadChunks(true, bars, counts, BarBase(bar) + off);
    whole, end := ReadOnce(true, bars, Sum(counts), BarBase(bar) + off);
    Chunking(bars, counts, bar, off);
  }

  lemma {:induction false} Summands(counts: seq<nat>)
    ensures forall i :: 0 <= i < |counts| ==> counts[i] <= Sum(counts)
  {
    if counts != [] {
      Summands(counts[1..]);
      assert forall i :: 1 <= i < |counts| ==> counts[i] == counts[1..][i - 1];
    }
  }
}
