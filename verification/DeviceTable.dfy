/**
 * The device table and the open files as a state machine: every call into
 * the driver is one step (pcieuni_ufn.c, pcieuni_probe_exp.c,
 * pcieuni_remove_exp.c and the entry checks of read, write and ioctl).
 */
module DeviceTable {
  import opened Common
  import opened BarTransfer
  import BarIo
  import opened ProjectWalk

  const NR_DEVS: nat := 15

  // The state.

  /** Which struct file, and which struct pci_dev. */
  type File = nat
  type Board = nat

  /** struct pcieuni_dev; its BARs are the recorded bounds with the words behind them. */
  datatype Dev = Dev(binded: bool, sts: bool, nullDev: bool, fileRef: int,
                     files: seq<File>, bars: seq<Bar>, prjs: seq<Project>)

  /**
   * What the driver and the kernel hold: the table, pcieuniModuleNum, the slot
   * each open file's private_data points at and the slot each bound board's
   * drvdata points at. The rest is history: slots claimed by a probe that
   * failed, files moved off each slot by remove, and runs of the branch that
   * destroys a device node before creating it.
   */
  datatype World = World(devs: seq<Dev>, moduleNum: int, files: map<File, nat>, live: map<Board, nat>,
                         lost: set<nat>, moved: seq<nat>, recreated: nat)

  function NoBar(): Bar {
    Bar(false, 0, 0, [])
  }

  function NoBars(): (bars: seq<Bar>)
    ensures |bars| == 6
  {
    [NoBar(), NoBar(), NoBar(), NoBar(), NoBar(), NoBar()]
  }

  function FreshDev(): Dev {
    Dev(false, false, false, 0, [], NoBars(), [])
  }

  /** pcieuni_init_module_exp */
  function Init(): World {
    World(seq(NR_DEVS, _ => FreshDev()) + [FreshDev().(binded := true, nullDev := true)],
          0, map[], map[], {}, seq(NR_DEVS, _ => 0), 0)
  }

  // Calls and what they answer.

  /** A PCI resource with the words behind it; mappable says whether pci_iomap succeeds. */
  datatype Resource = Resource(start: nat, end: nat, mappable: bool, words: seq<Word>)

  /** A resource is a range of 64-bit addresses, in words, of at most 4 GiB; or it is absent. */
  predicate ResourceOk(r: Resource) {
    || (r.start == 0 && r.end == 0)
    || (0 < r.start <= r.end < TWO64 && r.end - r.start + 1 == 4 * |r.words| <= TWO32)
  }

  /** Start and end are kept in u32; a truncated start of zero counts as no BAR. */
  function Record(r: Resource): Bar {
    Bar(r.start % TWO32 != 0 && r.mappable, r.start % TWO32, r.end % TWO32, r.words)
  }

  function RecordAll(rs: seq<Resource>): (bars: seq<Bar>)
    requires |rs| == 6
    ensures |bars| == 6 && forall i :: 0 <= i < 6 ==> bars[i] == Record(rs[i])
  {
    [Record(rs[0]), Record(rs[1]), Record(rs[2]), Record(rs[3]), Record(rs[4]), Record(rs[5])]
  }

  /** How a board answers a probe; memory is what the BARs read while it runs. */
  datatype Hardware =
    | EnableFails
    | RegionsFail
    | Binds(resources: seq<Resource>, memory: seq<Memory>)

  /** Six resources, and memory that holds their words. */
  predicate BoardOk(hw: Hardware)
    requires hw.Binds?
  {
    && |hw.resources| == |hw.memory| == 6
    && (forall i :: 0 <= i < 6 ==> ResourceOk(hw.resources[i]))
    && (forall i, k :: 0 <= i < 6 && 0 <= k < |hw.resources[i].words| ==>
          Load(hw.memory[i], 4 * k) == hw.resources[i].words[k])
  }

  /** The BARs that a probe maps. */
  function Mapped(hw: Hardware): (mems: seq<Option<Memory>>)
    requires hw.Binds? && |hw.resources| == |hw.memory| == 6
    ensures |mems| == 6
    ensures forall i :: 0 <= i < 6 ==> mems[i] == if Record(hw.resources[i]).mapped then Some(hw.memory[i]) else None
  {
    [Mapping(hw, 0), Mapping(hw, 1), Mapping(hw, 2), Mapping(hw, 3), Mapping(hw, 4), Mapping(hw, 5)]
  }

  function Mapping(hw: Hardware, i: nat): Option<Memory>
    requires hw.Binds? && |hw.resources| == |hw.memory| == 6 && i < 6
  {
    if Record(hw.resources[i]).mapped then Some(hw.memory[i]) else None
  }

  datatype Call =
    | Open(file: File, slot: nat, interrupted: bool)
    | Release(file: File)
    | Probe(board: Board, hardware: Hardware)
    | Remove(board: Board)
    | Read(file: File, count: nat, pos: nat, interrupted: bool, fault: nat)
    | Write(file: File, data: seq<Byte>, count: nat, pos: nat, interrupted: bool, fault: nat)
    | Ioctl(file: File)

  datatype Reply = Done | Transferred(n: nat) | Failed(error: Errno) | NoSlot | ProbeFailed

  /** What the kernel promises about its calls, and that a probe comes to an end. */
  ghost predicate Possible(w: World, c: Call) {
    match c
    case Open(f, slot, _) => f !in w.files && slot <= NR_DEVS
    case Release(f) => f in w.files
    case Probe(b, hw) =>
      b !in w.live && ProbeOk(hw)
    case Remove(b) => b in w.live
    case Read(f, count, pos, _, _) => f in w.files && count < TWO32 && pos < TWO63
    case Write(f, data, count, pos, _, fault) =>
      f in w.files && count < TWO32 && pos < TWO63 && Min(count, 4 * fault) <= |data|
    case Ioctl(f) => f in w.files
  }

  /** The search loop of the probe: the first slot from i on that is not bound, NR_DEVS if there is none. */
  function FirstFree(devs: seq<Dev>, i: nat): (s: nat)
    requires i <= NR_DEVS < |devs|
    ensures i <= s <= NR_DEVS && (s < NR_DEVS ==> !devs[s].binded)
    ensures forall j :: i <= j < s ==> devs[j].binded
    decreases NR_DEVS - i
  {
    if i == NR_DEVS || !devs[i].binded then i else FirstFree(devs, i + 1)
  }

  /** Every entry of a list other than x, in order: the deletion loop of release. */
  function Dropped<T(==)>(s: seq<T>, x: T): (r: seq<T>) {
    if s == [] then [] else (if s[0] == x then [] else [s[0]]) + Dropped(s[1..], x)
  }

  /** The files of a list sent to the null device. */
  function Redirected(files: map<File, nat>, list: seq<File>): map<File, nat> {
    map f | f in files :: if f in list then NR_DEVS else files[f]
  }

  /** remove clears the fields of the BARs it unmaps, and of no others. */
  function Unmapped(b: Bar): Bar {
    if b.mapped then NoBar() else b
  }

  function UnmappedAll(bars: seq<Bar>): (r: seq<Bar>)
    requires |bars| == 6
    ensures |r| == 6 && forall i :: 0 <= i < 6 ==> r[i] == Unmapped(bars[i])
  {
    [Unmapped(bars[0]), Unmapped(bars[1]), Unmapped(bars[2]), Unmapped(bars[3]), Unmapped(bars[4]), Unmapped(bars[5])]
  }

  /** Sixteen devices of six BARs, and handles that point into the table. */
  predicate WellFormed(w: World) {
    && |w.devs| == NR_DEVS + 1 && |w.moved| == NR_DEVS
    && (forall s :: 0 <= s <= NR_DEVS ==> |w.devs[s].bars| == 6)
    && (forall f :: f in w.files ==> w.files[f] <= NR_DEVS)
    && (forall b :: b in w.live ==> w.live[b] < NR_DEVS)
  }

  function Opened(w: World, f: File, slot: nat): World
    requires WellFormed(w) && slot <= NR_DEVS
  {
    var d := w.devs[slot];
    w.(devs := w.devs[slot := d.(fileRef := d.fileRef + 1, files := [f] + d.files)], files := w.files[f := slot])
  }

  function Released(w: World, f: File): World
    requires WellFormed(w) && f in w.files
  {
    var s := w.files[f];
    var d := w.devs[s];
    w.(devs := w.devs[s := d.(fileRef := d.fileRef - 1, files := Dropped(d.files, f))], files := w.files - {f})
  }

  /** A board whose probe comes to an end, if it binds. */
  ghost predicate ProbeOk(hw: Hardware) {
    hw.Binds? ==> BoardOk(hw) && Returns(Mapped(hw))
  }

  /** What a probe makes of the slot it found: claimed whatever follows, then BARs, projects and status. */
  ghost function Claimed(d: Dev, hw: Hardware): Dev
    requires ProbeOk(hw)
  {
    if hw.Binds?
    then d.(binded := true, sts := true, bars := RecordAll(hw.resources), prjs := Found(Mapped(hw)) + d.prjs)
    else d.(binded := true)
  }

  ghost function Occupied(w: World, b: Board, hw: Hardware, s: nat): World
    requires WellFormed(w) && ProbeOk(hw) && s < NR_DEVS
  {
    var v := w.(devs := w.devs[s := Claimed(w.devs[s], hw)]);
    if hw.Binds?
    then v.(moduleNum := w.moduleNum + 1, live := w.live[b := s],
            recreated := if w.devs[s].sts then w.recreated + 1 else w.recreated)
    else v.(lost := w.lost + {s})
  }

  ghost function Probed(w: World, b: Board, hw: Hardware): World
    requires WellFormed(w) && ProbeOk(hw)
  {
    var s := FirstFree(w.devs, 0);
    if s == NR_DEVS then w else Occupied(w, b, hw, s)
  }

  function Removed(w: World, b: Board): World
    requires WellFormed(w) && b in w.live
  {
    var s := w.live[b];
    var d := w.devs[s];
    var d' := d.(binded := false, sts := false, files := [], bars := UnmappedAll(d.bars), prjs := []);
    w.(devs := w.devs[s := d'], moduleNum := w.moduleNum - 1, files := Redirected(w.files, d.files),
       live := w.live - {b}, moved := w.moved[s := w.moved[s] + |d.files|])
  }

  function DeviceOf(w: World, f: File): Dev
    requires WellFormed(w) && f in w.files
  {
    w.devs[w.files[f]]
  }

  /** The check before every transfer, then the interruptible lock, then the words up to a copy fault. */
  function TransferReply(d: Dev, count: nat, pos: nat, interrupted: bool, fault: nat): Reply
    requires |d.bars| == 6
  {
    match Check(d.sts, d.bars, count, pos)
    case Err(e) => Failed(e)
    case Ok(t) => if interrupted then Failed(ERESTARTSYS) else Transferred(Min((t.count + 3) / 4 * 4, 4 * fault))
  }

  /** The words of a transfer of n bytes are stored, and nothing else changes. */
  function Stored(w: World, f: File, pos: nat, data: seq<Byte>, n: nat): World
    requires WellFormed(w) && f in w.files && BarOf(pos) < 6
  {
    var s, i := w.files[f], BarOf(pos);
    var d := w.devs[s];
    var words := BarIo.Overwritten(d.bars[i].words, data, OffsetOf(pos) / 4, n / 4);
    w.(devs := w.devs[s := d.(bars := d.bars[i := d.bars[i].(words := words)])])
  }

  function ProbeAnswer(w: World, hw: Hardware): Reply
    requires WellFormed(w)
  {
    if FirstFree(w.devs, 0) == NR_DEVS then NoSlot else if hw.Binds? then Done else ProbeFailed
  }

  function Answer(w: World, c: Call): Reply
    requires WellFormed(w) && Possible(w, c)
  {
    match c
    case Open(_, _, interrupted) => if interrupted then Failed(ERESTARTSYS) else Done
    case Release(_) => Done
    case Probe(_, hw) => ProbeAnswer(w, hw)
    case Remove(_) => Done
    case Read(f, count, pos, interrupted, fault) => TransferReply(DeviceOf(w, f), count, pos, interrupted, fault)
    case Write(f, _, count, pos, interrupted, fault) => TransferReply(DeviceOf(w, f), count, pos, interrupted, fault)
    case Ioctl(f) => if DeviceOf(w, f).sts then Done else Failed(EFAULT)
  }

  ghost function Next(w: World, c: Call): World
    requires WellFormed(w) && Possible(w, c)
  {
    match c
    case Open(f, slot, interrupted) => if interrupted then w else Opened(w, f, slot)
    case Release(f) => Released(w, f)
    case Probe(b, hw) => Probed(w, b, hw)
    case Remove(b) => Removed(w, b)
    case Write(f, data, _, pos, _, _) =>
      if Answer(w, c).Transferred? then Stored(w, f, pos, data, Answer(w, c).n) else w
    case _ => w
  }

  // Runs.

  /** Each call is possible where it is made. */
  ghost predicate Run(w: World, calls: seq<Call>)
    decreases |calls|
  {
    calls == [] || (WellFormed(w) && Possible(w, calls[0]) && Run(Next(w, calls[0]), calls[1..]))
  }

  ghost function After(w: World, calls: seq<Call>): World
    requires Run(w, calls)
    decreases |calls|
  {
    if calls == [] then w else After(Next(w, calls[0]), calls[1..])
  }

  ghost predicate Reachable(w: World) {
    exists calls :: Run(Init(), calls) && After(Init(), calls) == w
  }
}
