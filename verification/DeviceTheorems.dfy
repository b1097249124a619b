/** What holds of the device table over every run of calls. */
module DeviceTheorems {
  import opened Common
  import opened BarTransfer
  import BarIo
  import opened ProjectWalk
  import opened DeviceTable
  import opened DeviceInvariant

  // The start.

  /** After module init fifteen slots are free, the null device is bound, and nothing is open, counted or mapped. */
  lemma InitExact(s: nat)
    requires s <= NR_DEVS
    ensures var w := Init();
            && |w.devs| == 16 && w.moduleNum == 0 && w.files == map[] && w.live == map[] && w.lost == {}
            && (w.devs[s].binded <==> s == 15) && (w.devs[s].nullDev <==> s == 15) && !w.devs[s].sts
            && w.devs[s].fileRef == 0 && w.devs[s].files == [] && w.devs[s].prjs == []
            && |w.devs[s].bars| == 6 && forall i :: 0 <= i < 6 ==> !w.devs[s].bars[i].mapped
  {
  }

  // Handles.

  /** A read, write or ioctl on the file. */
  predicate IsIo(c: Call, f: File) {
    match c
    case Read(g, _, _, _, _) => g == f
    case Write(g, _, _, _, _, _) => g == f
    case Ioctl(g) => g == f
    case _ => false
  }

  /** A file on the null device stays there until it is released. */
  lemma NullStays(w: World, c: Call, f: File)
    requires WellFormed(w) && Possible(w, c) && f in w.files && w.files[f] == NR_DEVS && c != Release(f)
    ensures f in Next(w, c).files && Next(w, c).files[f] == NR_DEVS
  {
    match c
    case Probe(_, _) =>
    case _ =>
  }

  lemma {:induction false} NullStaysLong(w: World, calls: seq<Call>, f: File)
    requires Run(w, calls) && f in w.files && w.files[f] == NR_DEVS && Release(f) !in calls
    ensures f in After(w, calls).files && After(w, calls).files[f] == NR_DEVS
    decreases |calls|
  {
    if calls != [] {
      NullStays(w, calls[0], f);
      NullStaysLong(Next(w, calls[0]), calls[1..], f);
    }
  }

  /** Transfers and ioctls on a device without a board. */
  lemma DeadAnswer(w: World, c: Call, f: File)
    requires WellFormed(w) && Possible(w, c) && IsIo(c, f) && !w.devs[w.files[f]].sts
    ensures Answer(w, c) == Failed(EFAULT) && Next(w, c) == w
  {
  }

  /**
   * Stale handles stay dead. After board b is removed, every read, write or
   * ioctl on a file that was open on it fails with EFAULT and changes nothing,
   * after any run of calls that does not close the file, whatever boards come
   * to the slot meanwhile.
   */
  lemma StaleHandlesDead(w: World, b: Board, f: File, calls: seq<Call>, c: Call)
    requires Reachable(w) && WellFormed(w) && b in w.live && f in w.files && w.files[f] == w.live[b]
    requires Run(Next(w, Remove(b)), calls) && Release(f) !in calls && IsIo(c, f)
    ensures var w' := After(Next(w, Remove(b)), calls);
            && WellFormed(w') && f in w'.files
            && (Possible(w', c) ==> Answer(w', c) == Failed(EFAULT) && Next(w', c) == w')
  {
    var w1 := Next(w, Remove(b));
    ReachableInv(w);
    assert ListOk(w, w.live[b]);
    StepKeeps(w, Remove(b));
    NullStaysLong(w1, calls, f);
    RunKeeps(w1, calls);
    var w' := After(w1, calls);
    if Possible(w', c) {
      DeadAnswer(w', c, f);
    }
  }

  /** Board b has slot s and file f is on it. */
  ghost predicate Attached(w: World, f: File, b: Board, s: nat) {
    f in w.files && w.files[f] == s && b in w.live && w.live[b] == s
  }

  lemma AttachedStays(w: World, c: Call, f: File, b: Board, s: nat)
    requires Inv(w) && Possible(w, c) && Attached(w, f, b, s) && c != Release(f) && c != Remove(b)
    ensures Attached(Next(w, c), f, b, s)
  {
    match c
    case Probe(_, _) =>
    case Remove(d) =>
      assert w.live[d] != w.live[b];
      assert ListOk(w, w.live[d]);
    case _ =>
  }

  lemma {:induction false} AttachedLong(w: World, calls: seq<Call>, f: File, b: Board, s: nat)
    requires Inv(w) && Run(w, calls) && Attached(w, f, b, s) && Release(f) !in calls && Remove(b) !in calls
    ensures Attached(After(w, calls), f, b, s)
    decreases |calls|
  {
    if calls != [] {
      StepKeeps(w, calls[0]);
      AttachedStays(w, calls[0], f, b, s);
      AttachedLong(Next(w, calls[0]), calls[1..], f, b, s);
    }
  }

  /** The other direction: until the board is removed the handle reaches that board, whatever else comes and goes. */
  lemma LiveHandlesWork(w: World, b: Board, f: File, calls: seq<Call>)
    requires Reachable(w) && WellFormed(w) && b in w.live && f in w.files && w.files[f] == w.live[b]
    requires Run(w, calls) && Release(f) !in calls && Remove(b) !in calls
    ensures var w' := After(w, calls);
            && WellFormed(w') && f in w'.files && b in w'.live && w'.files[f] == w'.live[b] == w.live[b]
            && Answer(w', Ioctl(f)) == Done
  {
    ReachableInv(w);
    var s := w.live[b];
    AttachedLong(w, calls, f, b, s);
    RunKeeps(w, calls);
    var w' := After(w, calls);
    assert SlotOk(w', s) && b in w'.live && w'.live[b] == s;
  }

  // Open, call by call.

  /** Only slot s and the file table changed. */
  ghost predicate OnlySlot(w: World, w': World, s: nat) {
    && |w'.devs| == |w.devs| && w' == w.(devs := w'.devs, files := w'.files)
    && forall t :: 0 <= t < |w.devs| && t != s ==> w'.devs[t] == w.devs[t]
  }

  /**
   * An open puts the file, and no other, on the device of its inode, and counts
   * and lists it there; an interrupted one answers -ERESTARTSYS and does nothing.
   */
  lemma OpenExact(w: World, f: File, slot: nat, interrupted: bool)
    requires WellFormed(w) && Possible(w, Open(f, slot, interrupted))
    ensures interrupted ==> Answer(w, Open(f, slot, interrupted)) == Failed(ERESTARTSYS) && Next(w, Open(f, slot, interrupted)) == w
    ensures !interrupted ==>
              var w' := Next(w, Open(f, slot, interrupted));
              && Answer(w, Open(f, slot, interrupted)) == Done && OnlySlot(w, w', slot)
              && w'.files.Keys == w.files.Keys + {f} && w'.files[f] == slot
              && (forall g :: g in w.files ==> w'.files[g] == w.files[g])
              && w'.devs[slot] == w.devs[slot].(fileRef := w.devs[slot].fileRef + 1, files := [f] + w.devs[slot].files)
  {
  }

  /** A release takes the file, and no other, off its device. */
  lemma ReleaseExact(w: World, f: File)
    requires Reachable(w) && WellFormed(w) && f in w.files
    ensures var w' := Next(w, Release(f));
            && Answer(w, Release(f)) == Done && OnlySlot(w, w', w.files[f]) && w'.files == w.files - {f}
            && w'.devs[w.files[f]].fileRef == w.devs[w.files[f]].fileRef - 1
            && (forall g :: g in w'.devs[w.files[f]].files <==> g in w.devs[w.files[f]].files && g != f)
  {
    DroppedHas(w.devs[w.files[f]].files, f);
  }

  /** A file opened on a board's slot is served by that board until it is closed or the board removed. */
  lemma OpenedBoardServes(w: World, b: Board, f: File, calls: seq<Call>)
    requires Reachable(w) && WellFormed(w) && b in w.live && f !in w.files
    requires Run(Next(w, Open(f, w.live[b], false)), calls) && Release(f) !in calls && Remove(b) !in calls
    ensures var w' := After(Next(w, Open(f, w.live[b], false)), calls);
            && WellFormed(w') && f in w'.files && b in w'.live && w'.files[f] == w'.live[b] == w.live[b]
            && Answer(w', Ioctl(f)) == Done
  {
    var w1 := Next(w, Open(f, w.live[b], false));
    OpenExact(w, f, w.live[b], false);
    ReachableNext(w, Open(f, w.live[b], false));
    ReachableInv(w1);
    LiveHandlesWork(w1, b, f, calls);
  }

  // Transfers, call by call.

  /** A read or an ioctl leaves everything as it is. */
  lemma ReadKeepsAll(w: World, c: Call)
    requires WellFormed(w) && Possible(w, c) && (c.Read? || c.Ioctl?)
    ensures Next(w, c) == w
  {
  }

  /** n bytes of data went to words first and following of BAR i on slot s, and nothing else changed. */
  ghost predicate WroteExactly(w: World, w': World, s: nat, i: nat, data: seq<Byte>, first: nat, k: nat)
    requires WellFormed(w) && s <= NR_DEVS && i < 6
  {
    && OnlySlot(w, w', s) && w'.files == w.files
    && w'.devs[s] == w.devs[s].(bars := w'.devs[s].bars) && |w'.devs[s].bars| == 6
    && (forall j :: 0 <= j < 6 && j != i ==> w'.devs[s].bars[j] == w.devs[s].bars[j])
    && var was, now := w.devs[s].bars[i].words, w'.devs[s].bars[i].words;
       && w'.devs[s].bars[i] == w.devs[s].bars[i].(words := now) && |now| == |was|
       && BarIo.Composed(now, data, first, k)
       && forall j :: 0 <= j < |was| && !(first <= j < first + k) ==> now[j] == was[j]
  }

  /** A write stores exactly the words it reports, in its BAR of the file's device; a failing one leaves everything. */
  lemma WriteExact(w: World, f: File, data: seq<Byte>, count: nat, pos: nat, interrupted: bool, fault: nat)
    requires Reachable(w) && WellFormed(w) && Possible(w, Write(f, data, count, pos, interrupted, fault))
    ensures var r, w' := Answer(w, Write(f, data, count, pos, interrupted, fault)), Next(w, Write(f, data, count, pos, interrupted, fault));
            if r.Transferred? then
              && pos / TWO60 < 6 && r.n % 4 == 0
              && WroteExactly(w, w', w.files[f], pos / TWO60, data, (pos - BarBase(pos / TWO60)) / 4, r.n / 4)
            else w' == w
  {
    var c := Write(f, data, count, pos, interrupted, fault);
    var d := DeviceOf(w, f);
    DeviceBars(w, w.files[f]);
    ReplyExact(d, count, pos, interrupted, fault);
    if Answer(w, c).Transferred? {
      var first, m := TransferWords(d, count, pos, fault, Answer(w, c).n);
      StoredExactly(w, Next(w, c), f, pos, data, first, m);
    }
  }

  /** An accepted transfer in words. */
  lemma TransferWords(d: Dev, count: nat, pos: nat, fault: nat, n: nat) returns (first: nat, m: nat)
    requires BarsOk(d.bars) && count < TWO32 && pos < TWO63 && InBar(d.sts, d.bars, count, pos)
    requires n == Min(Moved(d.bars, count, pos), 4 * fault)
    ensures BarOf(pos) == pos / TWO60 < 6 && OffsetOf(pos) == pos - BarBase(pos / TWO60) == 4 * first
    ensures n == 4 * m && 4 * m <= count && first + m <= |d.bars[BarOf(pos)].words|
    ensures (pos - BarBase(pos / TWO60)) / 4 == first && n / 4 == m && n % 4 == 0
  {
    DecodePosition(pos);
    var k;
    first, k := BarIo.WordsMoved(d.sts, d.bars, count, pos);
    m := Min(k, fault);
    BarIo.Quarter(OffsetOf(pos), first);
    BarIo.Quarter(n, m);
  }

  lemma DeviceBars(w: World, s: nat)
    requires Reachable(w) && WellFormed(w) && s <= NR_DEVS
    ensures BarsOk(w.devs[s].bars)
  {
    ReachableInv(w);
    assert ContentOk(w.devs[s]);
  }

  lemma StoredExactly(w: World, w': World, f: File, pos: nat, data: seq<Byte>, first: nat, k: nat)
    requires WellFormed(w) && f in w.files && pos < TWO63 && BarOf(pos) < 6 && OffsetOf(pos) == 4 * first
    requires first + k <= |w.devs[w.files[f]].bars[BarOf(pos)].words| && 4 * k <= |data|
    requires w' == Stored(w, f, pos, data, 4 * k)
    ensures WroteExactly(w, w', w.files[f], BarOf(pos), data, first, k)
  {
    BarIo.Quarter(OffsetOf(pos), first);
    BarIo.Quarter(4 * k, k);
    StoredWords(w.devs[w.files[f]].bars[BarOf(pos)].words, data, first, k);
  }

  lemma StoredWords(words: seq<Word>, data: seq<Byte>, first: nat, k: nat)
    requires first + k <= |words| && 4 * k <= |data|
    ensures var now := BarIo.Overwritten(words, data, first, k);
            && BarIo.Composed(now, data, first, k) && |now| == |words|
            && forall j :: 0 <= j < |words| && !(first <= j < first + k) ==> now[j] == words[j]
  {
    BarIo.WrittenComposes(BarIo.Overwritten(words, data, first, k), words, data, first, k);
  }

  /** A transfer in any reachable state is refused exactly outside the BARs of a live board. */
  lemma RefusedExactly(w: World, f: File, count: nat, pos: nat, interrupted: bool, fault: nat)
    requires Reachable(w) && WellFormed(w) && Possible(w, Read(f, count, pos, interrupted, fault))
    ensures var d := DeviceOf(w, f);
            && BarsOk(d.bars)
            && (d.sts <==> w.files[f] < NR_DEVS && Serves(w.live, w.files[f]))
            && (Answer(w, Read(f, count, pos, interrupted, fault)) == Failed(EFAULT) <==> !InBar(d.sts, d.bars, count, pos))
  {
    ReachableInv(w);
    var d := DeviceOf(w, f);
    assert ContentOk(d);
    if w.files[f] < NR_DEVS {
      assert SlotOk(w, w.files[f]);
    }
    CheckExact(d.sts, d.bars, count, pos);
  }

  /** What a transfer answers: refused, interrupted, or min(count, length - offset) bytes up to a copy fault. */
  lemma ReplyExact(d: Dev, count: nat, pos: nat, interrupted: bool, fault: nat)
    requires BarsOk(d.bars) && count < TWO32 && pos < TWO63
    ensures TransferReply(d, count, pos, interrupted, fault) ==
            if !InBar(d.sts, d.bars, count, pos) then Failed(EFAULT)
            else if interrupted then Failed(ERESTARTSYS)
            else Transferred(Min(Moved(d.bars, count, pos), 4 * fault))
  {
    CheckExact(d.sts, d.bars, count, pos);
    CheckError(d.sts, d.bars, count, pos);
    if InBar(d.sts, d.bars, count, pos) {
      RoundsUpExactly(d.sts, d.bars, count, pos);
    }
  }

  lemma CheckError(sts: bool, bars: seq<Bar>, count: nat, pos: nat)
    requires |bars| == 6
    ensures Check(sts, bars, count, pos).Err? ==> Check(sts, bars, count, pos).error == EFAULT
  {
  }

  // Files.

  function RefSum(devs: seq<Dev>, n: nat): int
    requires n <= |devs|
  {
    if n == 0 then 0 else RefSum(devs, n - 1) + devs[n - 1].fileRef
  }

  /** The open files on slots below n. */
  ghost function Below(w: World, n: nat): set<File> {
    set f | f in w.files && w.files[f] < n
  }

  lemma {:induction false} SumPrefix(s: seq<nat>, n: nat)
    requires n < |s|
    ensures Sum(s[..n + 1]) == Sum(s[..n]) + s[n]
    decreases n
  {
    if n > 0 {
      SumPrefix(s[1..], n - 1);
      assert s[..n + 1][1..] == s[1..][..n] && s[..n][1..] == s[1..][..n - 1];
    }
  }

  lemma {:induction false} RefsBelow(w: World, n: nat)
    requires WellFormed(w) && Files(w) && n <= NR_DEVS
    ensures RefSum(w.devs, n) == |Below(w, n)| + Sum(w.moved[..n])
    decreases n
  {
    if n == 0 {
      assert Below(w, 0) == {};
    } else {
      RefsBelow(w, n - 1);
      assert ListOk(w, n - 1);
      var list := w.devs[n - 1].files;
      DistinctSize(list);
      assert Below(w, n) == Below(w, n - 1) + Elements(list);
      SumPrefix(w.moved, n - 1);
    }
  }

  /** The reference counts of all sixteen devices add up to the number of open files, ... */
  lemma FileRefConservation(w: World)
    requires Reachable(w)
    ensures |w.devs| == NR_DEVS + 1 && RefSum(w.devs, |w.devs|) == |w.files|
  {
    ReachableInv(w);
    AllRefs(w, NR_DEVS);
  }

  lemma AllRefs(w: World, n: nat)
    requires WellFormed(w) && Files(w) && n == NR_DEVS
    ensures RefSum(w.devs, |w.devs|) == |w.files|
  {
    RefsBelow(w, n);
    assert w.moved[..n] == w.moved;
    assert w.files.Keys == Below(w, n) + On(w, n);
  }

  /** ... each open file is in the list of its device once, and in no other, unless it was sent to the null device, ... */
  lemma ListedOnce(w: World, f: File, s: nat)
    requires Reachable(w) && f in w.files && s <= NR_DEVS
    ensures WellFormed(w)
    ensures multiset(w.devs[s].files)[f] <= 1
    ensures s == w.files[f] < NR_DEVS ==> multiset(w.devs[s].files)[f] == 1
    ensures s != w.files[f] ==> multiset(w.devs[s].files)[f] == 0
  {
    ReachableInv(w);
    if s < NR_DEVS {
      assert ListOk(w, s);
    }
    Occurrences(w.devs[s].files, f);
  }

  lemma {:induction false} Occurrences<T>(s: seq<T>, x: T)
    requires Distinct(s)
    ensures multiset(s)[x] == if x in s then 1 else 0
  {
    if s != [] {
      assert s == [s[0]] + s[1..] && s[0] !in s[1..];
      Occurrences(s[1..], x);
    }
  }

  /** ... and a single count is right exactly when remove never took files from that slot. */
  lemma CountDrift(w: World, s: nat)
    requires Reachable(w) && s < NR_DEVS
    ensures WellFormed(w) && w.devs[s].fileRef == |w.devs[s].files| + w.moved[s]
    ensures w.devs[s].fileRef == |On(w, s)| <==> w.moved[s] == 0
  {
    ReachableInv(w);
    assert ListOk(w, s);
    DistinctSize(w.devs[s].files);
    assert On(w, s) == Elements(w.devs[s].files);
  }

  /** remove adds the files open on the slot to the excess of its count. */
  lemma RemoveDrifts(w: World, b: Board)
    requires Reachable(w) && WellFormed(w) && b in w.live
    ensures var s, w' := w.live[b], Next(w, Remove(b));
            WellFormed(w') && On(w', s) == {} && w'.devs[s].fileRef == w.devs[s].fileRef == |On(w, s)| + w.moved[s]
  {
    ReachableInv(w);
    var s, w' := w.live[b], Next(w, Remove(b));
    RemoveKeeps(w, b, w');
    assert ListOk(w, s) && ListOk(w', s);
    DistinctSize(w.devs[s].files);
    assert On(w, s) == Elements(w.devs[s].files);
  }

  /** A board without BARs on slot 0. */
  lemma OneBoard() returns (w: World)
    ensures Reachable(w) && WellFormed(w) && 0 in w.live && w.live[0] == 0 && w.files == map[]
  {
    var absent, none := Resource(0, 0, false, []), map[];
    var hw := Binds([absent, absent, absent, absent, absent, absent], [none, none, none, none, none, none]);
    var w0 := Init();
    assert Run(w0, []) && After(w0, []) == w0;
    assert FirstFree(w0.devs, 0) == 0;
    CleanSlot(w0, 0, hw);
    ReachableNext(w0, Probe(0, hw));
    w := Next(w0, Probe(0, hw));
  }

  /** It happens: a file open on a board that is removed stays counted on the slot. */
  lemma CountCanDrift() returns (w: World)
    ensures Reachable(w) && WellFormed(w) && w.devs[0].fileRef > 0 && On(w, 0) == {}
  {
    var w1 := OneBoard();
    ReachableNext(w1, Open(5, 0, false));
    var w2 := Next(w1, Open(5, 0, false));
    RemoveDrifts(w2, 0);
    assert 5 in On(w2, 0);
    ReachableNext(w2, Remove(0));
    w := Next(w2, Remove(0));
  }

  /** Opening and then releasing a file restores the whole state. */
  lemma OpenThenRelease(w: World, f: File, slot: nat)
    requires Reachable(w) && WellFormed(w) && f !in w.files && slot <= NR_DEVS
    ensures var w1 := Next(w, Open(f, slot, false));
            WellFormed(w1) && f in w1.files && Next(w1, Release(f)) == w
  {
    NotListed(w, f, slot);
    DropAdded(w.devs[slot].files, f);
    ReleaseOpened(w, f, slot);
  }

  lemma NotListed(w: World, f: File, slot: nat)
    requires Reachable(w) && WellFormed(w) && f !in w.files && slot <= NR_DEVS
    ensures f !in w.devs[slot].files
  {
    ReachableInv(w);
    if slot < NR_DEVS {
      assert ListOk(w, slot);
    }
  }

  lemma DropAdded<T>(s: seq<T>, x: T)
    requires x !in s
    ensures Dropped([x] + s, x) == s
  {
    DroppedHas(s, x);
    assert ([x] + s)[1..] == s;
  }

  lemma ReleaseOpened(w: World, f: File, slot: nat)
    requires WellFormed(w) && f !in w.files && slot <= NR_DEVS
    requires Dropped([f] + w.devs[slot].files, f) == w.devs[slot].files
    ensures Released(Opened(w, f, slot), f) == w
  {
    var w1 := Opened(w, f, slot);
    assert w1.files - {f} == w.files;
    var d := w.devs[slot];
    assert w.devs[slot := w1.devs[slot]][slot := d] == w.devs;
  }

  // Slots.

  /** The bound slots, the null device apart. */
  ghost function Bound(w: World): set<nat>
    requires WellFormed(w)
  {
    set s: nat | s < NR_DEVS && w.devs[s].binded
  }

  lemma {:induction false} ServedSize(live: map<Board, nat>)
    requires Injective(live)
    ensures |live.Values| == |live|
    decreases |live|
  {
    if live != map[] {
      var b :| b in live;
      var rest := live - {b};
      ServesLess(live, b, rest);
      ServedSize(rest);
      assert live.Values == rest.Values + {live[b]} by {
        forall v | v in live.Values ensures v in rest.Values || v == live[b] {
          var c :| c in live && live[c] == v;
          assert c == b || (c in rest && rest[c] == v);
        }
      }
      assert live[b] !in rest.Values by {
        assert !Serves(rest, live[b]);
      }
    }
  }

  /**
   * Bound slots are the boards counted by pcieuniModuleNum plus the slots of
   * probes that failed after claiming one; the null device is no board's slot.
   */
  lemma SlotConservation(w: World)
    requires Reachable(w)
    ensures WellFormed(w) && |Bound(w)| == w.moduleNum + |w.lost| && w.moduleNum == |w.live|
    ensures forall s :: 0 <= s <= NR_DEVS && w.devs[s].sts ==> w.devs[s].binded
    ensures w.devs[NR_DEVS].binded && forall b :: b in w.live ==> w.live[b] < NR_DEVS && w.live[b] !in w.lost
    ensures forall b, c :: b in w.live && c in w.live && b != c ==> w.live[b] != w.live[c]
  {
    ReachableInv(w);
    BoundSize(w);
    forall s | 0 <= s <= NR_DEVS && w.devs[s].sts ensures w.devs[s].binded {
      if s < NR_DEVS {
        assert SlotOk(w, s);
      }
    }
    forall b | b in w.live ensures w.live[b] !in w.lost {
      assert SlotOk(w, w.live[b]) && Serves(w.live, w.live[b]);
    }
  }

  lemma BoundSize(w: World)
    requires WellFormed(w) && Slots(w)
    ensures |Bound(w)| == |w.live| + |w.lost|
  {
    BoundParts(w);
    ServedSize(w.live);
    forall s | s in w.lost ensures s !in w.live.Values {
      if s in w.live.Values {
        assert SlotOk(w, s) && Serves(w.live, s);
      }
    }
  }

  lemma BoundParts(w: World)
    requires WellFormed(w) && Slots(w)
    ensures Bound(w) == w.live.Values + w.lost
  {
    forall s: nat ensures s in Bound(w) <==> s in w.live.Values || s in w.lost {
      if s < NR_DEVS {
        assert SlotOk(w, s);
      }
      assert s in w.live.Values <==> Serves(w.live, s);
    }
  }

  /** A set of numbers below n has n members exactly when each of them is one. */
  lemma FullExactly(slots: set<nat>, n: nat)
    requires forall s :: s in slots ==> s < n
    ensures |slots| == n <==> forall s: nat :: s < n ==> s in slots
  {
    var all := Range(0, n);
    RangeSize(0, n);
    if s: nat :| s < n && s !in slots {
      SubsetSize(slots, all - {s});
    } else {
      SubsetSize(all, slots);
      SubsetSize(slots, all);
    }
  }

  /** A probe is turned away exactly when boards and failed probes have used up the fifteen slots. */
  lemma RefusedWhenFull(w: World, b: Board, hw: Hardware)
    requires Reachable(w) && WellFormed(w) && Possible(w, Probe(b, hw))
    ensures Answer(w, Probe(b, hw)) == NoSlot <==> w.moduleNum + |w.lost| == NR_DEVS
  {
    SlotConservation(w);
    FullExactly(Bound(w), NR_DEVS);
    var s := FirstFree(w.devs, 0);
    assert s < NR_DEVS ==> s !in Bound(w);
  }

  /** A slot is lost for ever: no run frees it or gives it to a board. */
  lemma {:induction false} LostForever(w: World, calls: seq<Call>)
    requires Inv(w) && Run(w, calls)
    ensures w.lost <= After(w, calls).lost
    ensures forall b :: b in After(w, calls).live ==> After(w, calls).live[b] !in w.lost
    decreases |calls|
  {
    if calls == [] {
      forall b | b in w.live ensures w.live[b] !in w.lost {
        assert SlotOk(w, w.live[b]) && Serves(w.live, w.live[b]);
      }
    } else {
      StepKeeps(w, calls[0]);
      LostForever(Next(w, calls[0]), calls[1..]);
    }
  }

  /** Probes that fail one after the other can use up any number of slots, and bind no board. */
  lemma {:induction false} CanLose(n: nat) returns (w: World)
    requires n <= NR_DEVS
    ensures Reachable(w) && WellFormed(w) && w.live == map[] && |w.lost| == n
  {
    if n == 0 {
      w := Init();
      assert Run(Init(), []) && After(Init(), []) == Init();
    } else {
      var v := CanLose(n - 1);
      var c := Probe(0, EnableFails);
      RefusedWhenFull(v, 0, EnableFails);
      SlotConservation(v);
      ReachableNext(v, c);
      var s := FirstFree(v.devs, 0);
      ReachableInv(v);
      LostIsBound(v, s);
      w := Next(v, c);
      ReachableInv(w);
    }
  }

  /** Fifteen failed probes disable the driver: every later probe of any board is turned away. */
  lemma AllLost(w: World, calls: seq<Call>, b: Board, hw: Hardware)
    requires Reachable(w) && |w.lost| == NR_DEVS && Run(w, calls)
    requires WellFormed(After(w, calls)) && Possible(After(w, calls), Probe(b, hw))
    ensures Answer(After(w, calls), Probe(b, hw)) == NoSlot
  {
    ReachableInv(w);
    RunKeeps(w, calls);
    LostForever(w, calls);
    FullExactly(w.lost, NR_DEVS);
    LostIsBound(After(w, calls), FirstFree(After(w, calls).devs, 0));
  }

  lemma LostIsBound(w: World, s: nat)
    requires Inv(w) && s <= NR_DEVS
    ensures s in w.lost ==> w.devs[s].binded
  {
    if s < NR_DEVS {
      assert SlotOk(w, s);
    }
  }

  /**
   * A probe that binds finds the slot clean: not yet in use, so the branch that
   * destroys an existing device node never runs, and with an empty project
   * list, so it ends up with the projects of this board and no others.
   */
  lemma CleanSlot(w: World, b: Board, hw: Hardware)
    requires Reachable(w) && WellFormed(w) && Possible(w, Probe(b, hw)) && Answer(w, Probe(b, hw)) == Done
    ensures var s, w' := FirstFree(w.devs, 0), Next(w, Probe(b, hw));
            && s < NR_DEVS && !w.devs[s].sts && w.devs[s].prjs == [] && w'.recreated == 0 && s !in w.live.Values
            && WellFormed(w') && w'.live[b] == s && w'.devs[s].prjs == Found(Mapped(hw)) && BarsOk(w'.devs[s].bars)
  {
    ReachableInv(w);
    var s := FirstFree(w.devs, 0);
    FreeSlotClean(w, s);
    ProbeShape(w, b, hw, s, Occupied(w, b, hw, s));
    RecordAllOk(hw.resources);
  }

  lemma FreeSlotClean(w: World, s: nat)
    requires Inv(w) && s < NR_DEVS && !w.devs[s].binded
    ensures !w.devs[s].sts && w.devs[s].prjs == [] && s !in w.live.Values && w.recreated == 0
  {
    assert SlotOk(w, s) && ContentOk(w.devs[s]);
    assert s in w.live.Values ==> Serves(w.live, s);
  }

  /**
   * Binding and then removing a board restores everything but the recorded
   * bounds of BARs that were not mapped and the files that were open on the
   * slot, which now are on the null device.
   */
  lemma ProbeThenRemove(w: World, b: Board, hw: Hardware)
    requires Reachable(w) && WellFormed(w) && Possible(w, Probe(b, hw)) && Answer(w, Probe(b, hw)) == Done
    ensures var s, w1 := FirstFree(w.devs, 0), Next(w, Probe(b, hw));
            && WellFormed(w1) && b in w1.live
            && Next(w1, Remove(b)) == Emptied(w, s, UnmappedAll(RecordAll(hw.resources)))
  {
    CleanSlot(w, b, hw);
    var s, w1 := FirstFree(w.devs, 0), Next(w, Probe(b, hw));
    RemoveBound(w, b, s, RecordAll(hw.resources), w1.devs[s], w1);
  }

  /** The files of a slot moved to the null device, its BARs replaced, and nothing else changed. */
  function Emptied(w: World, s: nat, bars: seq<Bar>): World
    requires WellFormed(w) && s < NR_DEVS
  {
    var d := w.devs[s];
    w.(devs := w.devs[s := d.(files := [], bars := bars)], files := Redirected(w.files, d.files),
       moved := w.moved[s := w.moved[s] + |d.files|])
  }

  /** Removing a board right after it was bound. */
  lemma RemoveBound(w: World, b: Board, s: nat, bars: seq<Bar>, d1: Dev, w1: World)
    requires WellFormed(w) && WellFormed(w1) && b !in w.live && s < NR_DEVS && |bars| == 6
    requires var d := w.devs[s]; !d.binded && !d.sts && d.prjs == []
    requires d1 == w.devs[s].(binded := true, sts := true, bars := bars, prjs := d1.prjs)
    requires w1 == w.(devs := w.devs[s := d1], moduleNum := w.moduleNum + 1, live := w.live[b := s])
    ensures Removed(w1, b) == Emptied(w, s, UnmappedAll(bars))
  {
    var w2 := Removed(w1, b);
    assert w2.live == w.live;
    assert w2.devs == Emptied(w, s, UnmappedAll(bars)).devs;
  }

  /**
   * A probe that binds puts resource i behind BAR i, and no other: it is mapped
   * exactly when it can be and its start is no multiple of 2^32, and then has
   * the words of the resource. It answers success exactly when there is a slot
   * and the board can be enabled and its regions requested.
   */
  lemma ProbeRecords(w: World, b: Board, hw: Hardware)
    requires WellFormed(w) && Possible(w, Probe(b, hw))
    ensures Answer(w, Probe(b, hw)) == Done <==> hw.Binds? && FirstFree(w.devs, 0) < NR_DEVS
    ensures Answer(w, Probe(b, hw)) == ProbeFailed <==> !hw.Binds? && FirstFree(w.devs, 0) < NR_DEVS
    ensures Answer(w, Probe(b, hw)) == Done ==> Recorded(w, Next(w, Probe(b, hw)), b, FirstFree(w.devs, 0), hw.resources)
  {
    if Answer(w, Probe(b, hw)) == Done {
      OccupiedRecords(w, b, hw, FirstFree(w.devs, 0));
    }
  }

  /** Slot s has become the board's, with these resources behind its BARs, and no other slot and no file changed. */
  ghost predicate Recorded(w: World, w': World, b: Board, s: nat, rs: seq<Resource>) {
    && |w.devs| == |w'.devs| == NR_DEVS + 1 && s < NR_DEVS && |rs| == |w'.devs[s].bars| == 6
    && w'.files == w.files && b in w'.live && w'.live[b] == s && w'.devs[s].binded && w'.devs[s].sts
    && w'.devs[s].fileRef == w.devs[s].fileRef && w'.devs[s].files == w.devs[s].files
    && (forall t :: 0 <= t <= NR_DEVS && t != s ==> w'.devs[t] == w.devs[t])
    && (forall i :: 0 <= i < 6 ==> RecordedAt(w'.devs[s].bars[i], rs[i]))
  }

  ghost predicate RecordedAt(bar: Bar, r: Resource) {
    (bar.mapped <==> r.mappable && r.start % TWO32 != 0) && bar.words == r.words
  }

  lemma OccupiedRecords(w: World, b: Board, hw: Hardware, s: nat)
    requires WellFormed(w) && ProbeOk(hw) && hw.Binds? && s < NR_DEVS
    ensures Recorded(w, Occupied(w, b, hw, s), b, s, hw.resources)
  {
    var w' := Occupied(w, b, hw, s);
    forall i | 0 <= i < 6 ensures RecordedAt(w'.devs[s].bars[i], hw.resources[i]) {
    }
  }

  /**
   * A remove frees its board's slot and sends exactly the files on it to the
   * null device; no other device and no other file changes.
   */
  lemma RemoveExact(w: World, b: Board)
    requires Reachable(w) && WellFormed(w) && b in w.live
    ensures var s, w' := w.live[b], Next(w, Remove(b));
            && Answer(w, Remove(b)) == Done && |w'.devs| == NR_DEVS + 1 && w'.live == w.live - {b}
            && w'.moduleNum == w.moduleNum - 1 && w'.lost == w.lost
            && (forall t :: 0 <= t <= NR_DEVS && t != s ==> w'.devs[t] == w.devs[t])
            && !w'.devs[s].binded && !w'.devs[s].sts && w'.devs[s].files == [] && w'.devs[s].prjs == []
            && w'.devs[s].fileRef == w.devs[s].fileRef
            && |w'.devs[s].bars| == 6 && (forall i :: 0 <= i < 6 ==> !w'.devs[s].bars[i].mapped)
            && w'.files.Keys == w.files.Keys
            && (forall f :: f in w.files ==> w'.files[f] == if w.files[f] == s then NR_DEVS else w.files[f])
  {
    ListedExactly(w, w.live[b]);
  }

  lemma ListedExactly(w: World, s: nat)
    requires Reachable(w) && WellFormed(w) && s < NR_DEVS
    ensures forall f :: f in w.devs[s].files <==> f in w.files && w.files[f] == s
  {
    ReachableInv(w);
    assert ListOk(w, s);
  }

  // Projects.

  /** A project block among the words of a resource, from word q on. */
  ghost predicate BlockInWords(words: seq<Word>, q: nat, p: Project) {
    && q + 6 < |words| && words[q] == 0x50524F4A
    && words[q + 1] == p.id && words[q + 2] == p.version && words[q + 3] == p.date && words[q + 4] == p.reserved
    && words[q + 6] == p.next
  }

  /** A board block in front, and projects at the given words, each naming the next one's byte offset. */
  ghost predicate Described(words: seq<Word>, qs: seq<nat>, ps: seq<Project>) {
    && |qs| == |ps| != 0 && |words| > 6 && (words[0] == 0x424F5244 || words[0] == 0x626F7264) && words[6] == 4 * qs[0]
    && (forall i :: 0 <= i < |ps| ==> 0 < qs[i] && 4 * qs[i] < 0x8000_0000 && BlockInWords(words, qs[i], ps[i]))
    && (forall i :: 0 <= i < |ps| ==> ps[i].next == if i + 1 < |ps| then 4 * qs[i + 1] else 0)
  }

  function Fourfold(qs: seq<nat>): (ats: seq<nat>)
    ensures |ats| == |qs| && forall i :: 0 <= i < |qs| ==> ats[i] == 4 * qs[i]
  {
    seq(|qs|, i requires 0 <= i < |qs| => 4 * qs[i])
  }

  lemma BlockLoads(mem: Memory, words: seq<Word>, q: nat, p: Project)
    requires BlockInWords(words, q, p) && forall k :: 0 <= k < |words| ==> Load(mem, 4 * k) == words[k]
    ensures Block(mem, 4 * q, p)
  {
    assert Load(mem, 4 * q) == words[q] && Load(mem, 4 * (q + 1)) == words[q + 1] && Load(mem, 4 * (q + 2)) == words[q + 2];
    assert Load(mem, 4 * (q + 3)) == words[q + 3] && Load(mem, 4 * (q + 4)) == words[q + 4] && Load(mem, 4 * (q + 6)) == words[q + 6];
  }

  lemma DescribedIsLaidOut(mem: Memory, words: seq<Word>, qs: seq<nat>, ps: seq<Project>)
    requires Described(words, qs, ps) && forall k :: 0 <= k < |words| ==> Load(mem, 4 * k) == words[k]
    ensures LaidOut(mem, Fourfold(qs), ps) && IsBoard(mem) && BoardNext(mem) == Fourfold(qs)[0]
  {
    forall i | 0 <= i < |ps| ensures Block(mem, Fourfold(qs)[i], ps[i]) {
      BlockLoads(mem, words, qs[i], ps[i]);
    }
    assert Load(mem, 4 * 0) == words[0] && Load(mem, 4 * 6) == words[6];
  }

  /** The projects found in mapped memory that a board describes in BAR 0. */
  lemma DescribedFound(mems: seq<Option<Memory>>, words: seq<Word>, qs: seq<nat>, ps: seq<Project>)
    requires |mems| == 6 && mems[0].Some? && forall k :: 0 <= k < |words| ==> Load(mems[0].value, 4 * k) == words[k]
    requires Described(words, qs, ps)
    ensures Returns(mems) && Found(mems) == Reverse(ps)
  {
    DescribedIsLaidOut(mems[0].value, words, qs, ps);
    LaidOutIsWhole(mems[0].value, Fourfold(qs), ps);
  }

  /**
   * A probe of a board that describes projects in the words of BAR 0 ends and
   * leaves the device with exactly those projects, the last one first.
   */
  lemma ProbeFindsProjects(w: World, b: Board, hw: Hardware, qs: seq<nat>, ps: seq<Project>)
    requires Reachable(w) && WellFormed(w) && b !in w.live && hw.Binds? && BoardOk(hw) && FirstFree(w.devs, 0) < NR_DEVS
    requires hw.resources[0].mappable && hw.resources[0].start % TWO32 != 0 && Described(hw.resources[0].words, qs, ps)
    ensures Possible(w, Probe(b, hw)) && Answer(w, Probe(b, hw)) == Done
    ensures var prjs := Next(w, Probe(b, hw)).devs[FirstFree(w.devs, 0)].prjs;
            |prjs| == |ps| && forall j :: 0 <= j < |ps| ==> prjs[j] == ps[|ps| - 1 - j]
  {
    DescribedFound(Mapped(hw), hw.resources[0].words, qs, ps);
    CleanSlot(w, b, hw);
  }

  // BARs.

  /** A BAR that is there and can be mapped is refused at every offset exactly when its start is a multiple of 2^32. */
  lemma RefusedAtMultiplesOf4G(rs: seq<Resource>, i: nat, count: nat, off: nat)
    requires |rs| == 6 && (forall j :: 0 <= j < 6 ==> ResourceOk(rs[j])) && i < 6
    requires rs[i].start != 0 && rs[i].mappable && off < 4 * |rs[i].words|
    requires off % 4 == 0 && count % 4 == 0 && count < TWO32
    ensures Check(true, RecordAll(rs), count, BarBase(i) + off).Err? <==> rs[i].start % TWO32 == 0
  {
    RecordAllOk(rs);
    CheckExact(true, RecordAll(rs), count, BarBase(i) + off);
    BarIo.BaseAligned(i, off, BarBase(i) + off);
  }
}
