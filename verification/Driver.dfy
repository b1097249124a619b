/**
 * The driver's objects: sixteen struct pcieuni_dev in a table, the
 * private_data of open files and the drvdata of bound boards pointing at
 * them. Each method is one call into the driver, and is proved to do what
 * the state machine of DeviceTable says, so that what holds of every run of
 * calls there holds of every sequence of calls here.
 */
module Driver {
  import opened Common
  import opened BarTransfer
  import BarIo
  import opened ProjectWalk
  import opened DeviceTable
  import opened DeviceInvariant
  import opened DeviceTheorems

  /** struct pcieuni_dev */
  class Device {
    const brdNum: nat
    var binded: bool
    var sts: bool
    var nullDev: bool
    var fileRef: int
    var files: seq<File>
    var bars: seq<Bar>
    var prjs: seq<Project>

    constructor (i: nat)
      ensures brdNum == i && Value() == FreshDev()
    {
      brdNum := i;
      binded, sts, nullDev, fileRef, files, bars, prjs := false, false, false, 0, [], NoBars(), [];
    }

    ghost function Value(): Dev
      reads this
    {
      Dev(binded, sts, nullDev, fileRef, files, bars, prjs)
    }

    /** open, on this device */
    method Enlist(filp: File)
      modifies this
      ensures Value() == old(Value()).(fileRef := old(fileRef) + 1, files := [filp] + old(files))
    {
      fileRef := fileRef + 1;
      files := [filp] + files;
    }

    /** release, on this device: the count, and a loop that unlinks every entry of the file. */
    method Delist(filp: File)
      modifies this
      ensures Value() == old(Value()).(fileRef := old(fileRef) - 1, files := Dropped(old(files), filp))
    {
      fileRef := fileRef - 1;
      var i := 0;
      while i < |files|
        invariant i <= |files| && Value() == old(Value()).(fileRef := old(fileRef) - 1, files := files)
        invariant files[..i] + Dropped(files[i..], filp) == Dropped(old(files), filp)
        decreases |files| - i
      {
        DropNext(files, i, filp);
        if files[i] == filp {
          files := files[..i] + files[i + 1..];
        } else {
          i := i + 1;
        }
      }
      assert files[..i] + [] == files;
    }

    /** probe, on the slot it found: claimed whatever follows, then the BARs, the projects and the status. */
    method Claim(hw: Hardware)
      requires ProbeOk(hw)
      modifies this
      ensures Value() == Claimed(old(Value()), hw)
    {
      binded := true;
      if hw.Binds? {
        bars := RecordAll(hw.resources);
        var info := new ProjectInfo(prjs);
        info.Search(Mapped(hw));
        prjs := info.list;
        if sts {
          sts := false;
        }
        sts := true;
      }
    }

    /** write, on this device. */
    method Store(data: seq<Byte>, count: nat, pos: nat, interrupted: bool, fault: nat) returns (r: Reply, pos': nat)
      requires BarsOk(bars) && pos < TWO63 && count < TWO32 && Min(count, 4 * fault) <= |data|
      modifies this
      ensures r == TransferReply(old(Value()), count, pos, interrupted, fault)
      ensures pos' == if r.Transferred? then pos + r.n else pos
      ensures r.Transferred? ==> BarOf(pos) < 6
      ensures Value() == if r.Transferred? then Holding(old(Value()), pos, data, r.n) else old(Value())
    {
      ReplyExact(Value(), count, pos, interrupted, fault);
      DecodePosition(pos);
      var ret, end, now := BarIo.Write(sts, bars, data, count, pos, interrupted, fault);
      if ret.Ok? {
        BarIo.WrittenIs(now[pos / TWO60].words, bars[pos / TWO60].words, data, OffsetOf(pos) / 4, ret.value / 4);
      }
      bars := now;
      pos' := end;
      r := if ret.Ok? then Transferred(ret.value) else Failed(ret.error);
    }

    /** remove, up to its file list: a loop unlinks every project, then the BARs and the status are cleared. */
    method TearDown()
      requires |bars| == 6
      modifies this
      ensures Value() == old(Value()).(binded := false, sts := false, bars := UnmappedAll(old(bars)), prjs := [])
    {
      while prjs != []
        invariant Value() == old(Value()).(prjs := prjs)
        decreases |prjs|
      {
        prjs := prjs[1..];
      }
      bars := UnmappedAll(bars);
      sts := false;
      binded := false;
    }
  }

  /** One round of the unlinking loop. */
  lemma DropNext(s: seq<File>, i: nat, x: File)
    requires i < |s|
    ensures s[i] != x ==> s[..i + 1] + Dropped(s[i + 1..], x) == s[..i] + Dropped(s[i..], x)
    ensures s[i] == x ==>
              var t := s[..i] + s[i + 1..];
              t[..i] + Dropped(t[i..], x) == s[..i] + Dropped(s[i..], x)
  {
    var rest := s[i..];
    assert rest[1..] == s[i + 1..] && s[..i + 1] == s[..i] + [rest[0]];
    var t := s[..i] + s[i + 1..];
    assert t[..i] == s[..i] && t[i..] == s[i + 1..];
  }

  /** Each device knows its place in the table, so no device is there twice. */
  ghost predicate Numbered(devs: seq<Device>) {
    forall i :: 0 <= i < |devs| ==> devs[i].brdNum == i
  }

  class Cdev {
    const devs: seq<Device>
    var moduleNum: int
    var privateData: map<File, nat>
    var drvdata: map<Board, nat>
    ghost var world: World

    /** The objects of the table hold these values. */
    ghost predicate Shows(v: seq<Dev>)
      reads devs
    {
      |v| == |devs| && forall i :: 0 <= i < |devs| ==> devs[i].Value() == v[i]
    }

    /** The objects are in the state world. */
    ghost predicate Tied()
      reads this, devs
    {
      && WellFormed(world) && Numbered(devs) && Shows(world.devs) && moduleNum == world.moduleNum
      && privateData == world.files && drvdata == world.live
    }

    /** ... which a run of calls has led to. */
    ghost predicate Valid()
      reads this, devs
    {
      Tied() && Reachable(world)
    }

    /** The loop of pcieuni_init_module_exp: fifteen slots and the null device. */
    static method NewDevices() returns (devs: seq<Device>)
      ensures |devs| == NR_DEVS + 1 && Numbered(devs) && forall s :: 0 <= s <= NR_DEVS ==> fresh(devs[s])
      ensures forall s :: 0 <= s <= NR_DEVS ==> devs[s].Value() == Init().devs[s]
    {
      devs := [];
      for i := 0 to NR_DEVS + 1
        invariant |devs| == i && Numbered(devs) && forall s :: 0 <= s < i ==> fresh(devs[s])
        invariant forall s :: 0 <= s < i ==> devs[s].Value() == Init().devs[s]
      {
        var d := new Device(i);
        if i == NR_DEVS {
          d.binded, d.nullDev := true, true;
        }
        devs := devs + [d];
      }
    }

    constructor ()
      ensures Valid() && fresh(devs) && world == Init()
    {
      var table := NewDevices();
      devs, moduleNum, privateData, drvdata, world := table, 0, map[], map[], Init();
      assert Run(Init(), []) && After(Init(), []) == Init();
    }

    /** pcieuni_open_exp */
    method Open(filp: File, slot: nat, interrupted: bool) returns (r: Reply)
      requires Valid() && Possible(world, Call.Open(filp, slot, interrupted))
      modifies this, devs
      ensures Valid() && r == Answer(old(world), Call.Open(filp, slot, interrupted))
      ensures world == Next(old(world), Call.Open(filp, slot, interrupted))
    {
      ReachableNext(world, Call.Open(filp, slot, interrupted));
      if interrupted {
        return Failed(ERESTARTSYS);
      }
      OpenOn(filp, slot);
      r := Done;
    }

    method OpenOn(filp: File, slot: nat)
      requires Tied() && slot <= NR_DEVS
      modifies this, devs
      ensures Tied() && world == Opened(old(world), filp, slot)
    {
      devs[slot].Enlist(filp);
      privateData := privateData[filp := slot];
      world := Opened(world, filp, slot);
    }

    /** pcieuni_release_exp */
    method Release(filp: File) returns (r: Reply)
      requires Valid() && Possible(world, Call.Release(filp))
      modifies this, devs
      ensures Valid() && r == Answer(old(world), Call.Release(filp))
      ensures world == Next(old(world), Call.Release(filp))
    {
      ReachableNext(world, Call.Release(filp));
      ReleaseFrom(filp);
      r := Done;
    }

    method ReleaseFrom(filp: File)
      requires Tied() && filp in privateData
      modifies this, devs
      ensures Tied() && world == Released(old(world), filp)
    {
      devs[privateData[filp]].Delist(filp);
      privateData := privateData - {filp};
      world := Released(world, filp);
    }

    /** The search loop of the probe. */
    method FindSlot() returns (s: nat)
      requires Tied()
      ensures s == FirstFree(world.devs, 0)
    {
      s := 0;
      while s < NR_DEVS
        invariant s <= NR_DEVS && FirstFree(world.devs, 0) == FirstFree(world.devs, s)
      {
        assert devs[s].Value() == world.devs[s];
        if !devs[s].binded {
          break;
        }
        s := s + 1;
      }
    }

    /** pcieuni_probe_exp */
    method Probe(board: Board, hw: Hardware) returns (r: Reply)
      requires Valid() && Possible(world, Call.Probe(board, hw))
      modifies this, devs
      ensures Valid() && r == Answer(old(world), Call.Probe(board, hw))
      ensures world == Next(old(world), Call.Probe(board, hw))
    {
      ReachableNext(world, Call.Probe(board, hw));
      var s := FindSlot();
      if s == NR_DEVS {
        return NoSlot;
      }
      Occupy(board, hw, s);
      r := if hw.Binds? then Done else ProbeFailed;
    }

    /** The probe on the slot it found. */
    method Occupy(board: Board, hw: Hardware, s: nat)
      requires Tied() && ProbeOk(hw) && s < NR_DEVS
      modifies this, devs
      ensures Tied() && world == Occupied(old(world), board, hw, s)
    {
      ghost var w' := Occupied(world, board, hw, s);
      ProbeShape(world, board, hw, s, w');
      devs[s].Claim(hw);
      if hw.Binds? {
        drvdata := drvdata[board := s];
        moduleNum := moduleNum + 1;
      }
      world := w';
    }

    /** pcieuni_remove_exp */
    method Remove(board: Board) returns (r: Reply)
      requires Valid() && Possible(world, Call.Remove(board))
      modifies this, devs
      ensures Valid() && r == Answer(old(world), Call.Remove(board))
      ensures world == Next(old(world), Call.Remove(board))
    {
      ReachableNext(world, Call.Remove(board));
      ListedAreOpen(world, drvdata[board]);
      Vacate(board);
      r := Done;
    }

    method Vacate(board: Board)
      requires Tied() && board in drvdata
      requires forall f :: f in world.devs[world.live[board]].files ==> f in world.files
      modifies this, devs
      ensures Tied() && world == Removed(old(world), board)
    {
      var d := devs[drvdata[board]];
      d.TearDown();
      moduleNum := moduleNum - 1;
      Redirect(d);
      drvdata := drvdata - {board};
      world := Removed(world, board);
    }

    /** read: the check and the word loop on the BARs of the device the file is on. */
    method Read(filp: File, buf: array<Byte>, count: nat, pos: nat, interrupted: bool, fault: nat, partial: nat)
      returns (r: Reply, pos': nat)
      requires Valid() && Possible(world, Call.Read(filp, count, pos, interrupted, fault))
      requires partial < 4 && Min(count, 4 * fault + partial) <= buf.Length
      modifies buf
      ensures Valid() && r == Answer(old(world), Call.Read(filp, count, pos, interrupted, fault))
      ensures world == Next(old(world), Call.Read(filp, count, pos, interrupted, fault))
      ensures pos' == if r.Transferred? then pos + r.n else pos
      ensures Delivered(DeviceOf(world, filp), count, pos, fault, partial, r, old(buf[..]), buf[..])
    {
      var d := devs[privateData[filp]];
      RecordedBars(world, privateData[filp]);
      ReplyExact(d.Value(), count, pos, interrupted, fault);
      var ret, end := BarIo.Read(d.sts, d.bars, buf, count, pos, interrupted, fault, partial);
      pos' := end;
      r := if ret.Ok? then Transferred(ret.value) else Failed(ret.error);
    }

    /** write, in the same way; the words go to the device. */
    method Write(filp: File, data: seq<Byte>, count: nat, pos: nat, interrupted: bool, fault: nat)
      returns (r: Reply, pos': nat)
      requires Valid() && Possible(world, Call.Write(filp, data, count, pos, interrupted, fault))
      modifies this, devs
      ensures Valid() && r == Answer(old(world), Call.Write(filp, data, count, pos, interrupted, fault))
      ensures world == Next(old(world), Call.Write(filp, data, count, pos, interrupted, fault))
      ensures pos' == if r.Transferred? then pos + r.n else pos
    {
      RecordedBars(world, privateData[filp]);
      ReachableNext(world, Call.Write(filp, data, count, pos, interrupted, fault));
      r, pos' := StoreOn(filp, data, count, pos, interrupted, fault);
    }

    method StoreOn(filp: File, data: seq<Byte>, count: nat, pos: nat, interrupted: bool, fault: nat)
      returns (r: Reply, pos': nat)
      requires Tied() && filp in privateData && BarsOk(DeviceOf(world, filp).bars)
      requires pos < TWO63 && count < TWO32 && Min(count, 4 * fault) <= |data|
      modifies this, devs
      ensures Tied() && r == TransferReply(DeviceOf(old(world), filp), count, pos, interrupted, fault)
      ensures pos' == if r.Transferred? then pos + r.n else pos
      ensures r.Transferred? ==> BarOf(pos) < 6
      ensures world == if r.Transferred? then Stored(old(world), filp, pos, data, r.n) else old(world)
    {
      r, pos' := devs[privateData[filp]].Store(data, count, pos, interrupted, fault);
      if r.Transferred? {
        world := Stored(world, filp, pos, data, r.n);
      }
    }

    /** ioctl, up to its check of the status. */
    method Ioctl(filp: File) returns (r: Reply)
      requires Valid() && Possible(world, Call.Ioctl(filp))
      ensures r == Answer(world, Call.Ioctl(filp)) && Next(world, Call.Ioctl(filp)) == world
    {
      var d := devs[privateData[filp]];
      if !d.sts {
        return Failed(EFAULT);
      }
      r := Done;
    }

    /**
     * A board is bound, a file is opened on its slot and read at an offset of
     * BAR i: the bytes are those of the words behind resource i of that board.
     */
    method BindOpenRead(board: Board, hw: Hardware, filp: File, i: nat, off: nat, count: nat, buf: array<Byte>)
      returns (r: Reply)
      requires Valid() && Possible(world, Call.Probe(board, hw)) && hw.Binds? && filp !in world.files
      requires FirstFree(world.devs, 0) < NR_DEVS && i < 6 && hw.resources[i].mappable && hw.resources[i].start % TWO32 != 0
      requires off % 4 == 0 && count % 4 == 0 && count < TWO32 && off < 4 * |hw.resources[i].words| && count <= buf.Length
      modifies this, devs, buf
      ensures Valid() && r == Transferred(Min(count, 4 * |hw.resources[i].words| - off))
      ensures BarIo.Spelled(buf[..], hw.resources[i].words, off / 4, r.n)
    {
      BindOpen(board, hw, filp);
      r := ReadBar(filp, hw.resources[i], i, off, count, buf);
    }

    /** A board is bound and a file opened on its slot: the file's device has the board's resources behind its BARs. */
    method BindOpen(board: Board, hw: Hardware, filp: File)
      requires Valid() && Possible(world, Call.Probe(board, hw)) && hw.Binds? && filp !in world.files
      requires FirstFree(world.devs, 0) < NR_DEVS
      modifies this, devs
      ensures Valid() && filp in world.files && DeviceOf(world, filp).sts
      ensures forall i :: 0 <= i < 6 ==> RecordedAt(DeviceOf(world, filp).bars[i], hw.resources[i])
    {
      ghost var w := world;
      ProbeRecords(w, board, hw);
      var _ := Probe(board, hw);
      ghost var w1 := world;
      OpenExact(w1, filp, w1.live[board], false);
      var _ := Open(filp, drvdata[board], false);
    }

    /** A read at an offset of a BAR that a resource is behind. */
    method ReadBar(filp: File, res: Resource, i: nat, off: nat, count: nat, buf: array<Byte>) returns (r: Reply)
      requires Valid() && filp in world.files && DeviceOf(world, filp).sts
      requires i < 6 && RecordedAt(DeviceOf(world, filp).bars[i], res) && res.mappable && res.start % TWO32 != 0
      requires off % 4 == 0 && count % 4 == 0 && count < TWO32 && off < 4 * |res.words| && count <= buf.Length
      modifies buf
      ensures Valid() && r == Transferred(Min(count, 4 * |res.words| - off))
      ensures BarIo.Spelled(buf[..], res.words, off / 4, r.n)
    {
      RecordedBars(world, world.files[filp]);
      ReachesBar(DeviceOf(world, filp), res, i, off, count);
      ReplyExact(DeviceOf(world, filp), count, BarBase(i) + off, false, count);
      var end;
      r, end := Read(filp, buf, count, BarBase(i) + off, false, count, 0);
    }

    /** The last loop of remove: every listed file is pointed at the null device and unlinked. */
    method Redirect(d: Device)
      requires forall f :: f in d.files ==> f in privateData
      modifies this`privateData, d`files
      ensures d.Value() == old(d.Value()).(files := []) && privateData == Redirected(old(privateData), old(d.files))
    {
      ghost var list := d.files;
      ghost var k := 0;
      assert privateData == Redirected(privateData, list[..0]);
      while d.files != []
        invariant k <= |list| && d.files == list[k..]
        invariant privateData == Redirected(old(privateData), list[..k])
        decreases |d.files|
      {
        var f := d.files[0];
        privateData := privateData[f := NR_DEVS];
        d.files := d.files[1..];
        assert list[..k + 1] == list[..k] + [f];
        k := k + 1;
      }
      assert list[..k] == list;
    }
  }

  /** The device after a write of n bytes. */
  ghost function Holding(d: Dev, pos: nat, data: seq<Byte>, n: nat): Dev
    requires |d.bars| == 6 && BarOf(pos) < 6
  {
    var i := BarOf(pos);
    d.(bars := d.bars[i := d.bars[i].(words := BarIo.Overwritten(d.bars[i].words, data, OffsetOf(pos) / 4, n / 4))])
  }

  /** What a read leaves in the user's buffer: the slice of the BAR up to the fault, and nothing if it fails. */
  ghost predicate Delivered(d: Dev, count: nat, pos: nat, fault: nat, partial: nat, r: Reply, start: seq<Byte>, now: seq<Byte>) {
    if r.Transferred? then
      && BarsOk(d.bars) && InBar(d.sts, d.bars, count, pos)
      && var m := if 4 * fault < Moved(d.bars, count, pos) then r.n + partial else r.n;
         && BarIo.Filled(now, start, BarIo.Bytes(d.bars[pos / TWO60].words), pos - BarBase(pos / TWO60), m)
         && BarIo.Spelled(now, d.bars[pos / TWO60].words, (pos - BarBase(pos / TWO60)) / 4, m)
    else now == start
  }

  /** A request at an offset of BAR i is inside the BAR that resource i was recorded in. */
  lemma ReachesBar(d: Dev, res: Resource, i: nat, off: nat, count: nat)
    requires BarsOk(d.bars) && d.sts && i < 6 && RecordedAt(d.bars[i], res) && res.mappable && res.start % TWO32 != 0
    requires off % 4 == 0 && count % 4 == 0 && off < 4 * |res.words|
    ensures var pos := BarBase(i) + off;
            && pos / TWO60 == i && pos < TWO63 && InBar(d.sts, d.bars, count, pos)
            && Moved(d.bars, count, pos) == Min(count, 4 * |res.words| - off)
  {
    assert BarOk(d.bars[i]);
    BarIo.BaseAligned(i, off, BarBase(i) + off);
  }

  lemma RecordedBars(w: World, s: nat)
    requires Reachable(w) && WellFormed(w) && s <= NR_DEVS
    ensures BarsOk(w.devs[s].bars)
  {
    ReachableInv(w);
    assert ContentOk(w.devs[s]);
  }

  lemma ListedAreOpen(w: World, s: nat)
    requires Reachable(w) && WellFormed(w) && s < NR_DEVS
    ensures forall f :: f in w.devs[s].files ==> f in w.files
  {
    ReachableInv(w);
    assert ListOk(w, s);
  }
}
