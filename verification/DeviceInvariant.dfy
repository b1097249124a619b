/** What every call into the driver keeps. */
module DeviceInvariant {
  import opened Common
  import opened BarTransfer
  import opened DeviceTable

  /** The open files whose private_data points at slot s. */
  ghost function On(w: World, s: nat): set<File> {
    set f | f in w.files && w.files[f] == s
  }

  /** Some bound board has slot s. */
  ghost predicate Serves(live: map<Board, nat>, s: nat) {
    exists b :: b in live && live[b] == s
  }

  ghost predicate Injective(live: map<Board, nat>) {
    forall b, c :: b in live && c in live && live[b] == live[c] ==> b == c
  }

  /** A slot is taken by a live board, lost to a failed probe, or free; never two of them. */
  ghost predicate SlotOk(w: World, s: nat)
    requires WellFormed(w) && s < NR_DEVS
  {
    && !w.devs[s].nullDev
    && (w.devs[s].sts <==> Serves(w.live, s))
    && (w.devs[s].binded <==> Serves(w.live, s) || s in w.lost)
    && !(Serves(w.live, s) && s in w.lost)
  }

  ghost predicate Slots(w: World)
    requires WellFormed(w)
  {
    && (forall s :: 0 <= s < NR_DEVS ==> SlotOk(w, s))
    && (forall s :: s in w.lost ==> s < NR_DEVS)
    && Injective(w.live)
    && w.moduleNum == |w.live| && w.recreated == 0
  }

  /** A device without a board has no BARs and no projects; a device with one has the BARs it needs. */
  ghost predicate ContentOk(d: Dev) {
    && BarsOk(d.bars)
    && (!d.sts ==> d.prjs == [] && forall i :: 0 <= i < 6 ==> !d.bars[i].mapped)
  }

  ghost predicate Contents(w: World)
    requires WellFormed(w)
  {
    forall s :: 0 <= s <= NR_DEVS ==> ContentOk(w.devs[s])
  }

  ghost predicate NullOk(d: Dev) {
    d.nullDev && d.binded && !d.sts
  }

  /** The list of a slot holds exactly its open files, once each; removes have left its counter too high. */
  ghost predicate ListOk(w: World, s: nat)
    requires WellFormed(w) && s < NR_DEVS
  {
    && Distinct(w.devs[s].files)
    && (forall f :: f in w.devs[s].files <==> f in w.files && w.files[f] == s)
    && w.devs[s].fileRef == |w.devs[s].files| + w.moved[s]
  }

  /** The null device lists only those of its files that were opened on it; its counter is too low. */
  ghost predicate NullListOk(w: World)
    requires WellFormed(w)
  {
    && Distinct(w.devs[NR_DEVS].files)
    && (forall f :: f in w.devs[NR_DEVS].files ==> f in w.files && w.files[f] == NR_DEVS)
    && w.devs[NR_DEVS].fileRef == |On(w, NR_DEVS)| - Sum(w.moved)
  }

  ghost predicate Files(w: World)
    requires WellFormed(w)
  {
    && (forall s :: 0 <= s < NR_DEVS ==> ListOk(w, s))
    && NullListOk(w)
  }

  ghost predicate Inv(w: World) {
    WellFormed(w) && NullOk(w.devs[NR_DEVS]) && Slots(w) && Contents(w) && Files(w)
  }

  // Small facts.

  lemma {:induction false} SumUpdate(s: seq<nat>, i: nat, x: nat)
    requires i < |s|
    ensures Sum(s[i := x]) == Sum(s) - s[i] + x
  {
    if i == 0 {
      assert s[i := x][1..] == s[1..];
    } else {
      SumUpdate(s[1..], i - 1, x);
      assert s[i := x][1..] == s[1..][i - 1 := x];
    }
  }

  lemma {:induction false} SumZero(s: seq<nat>)
    requires forall i :: 0 <= i < |s| ==> s[i] == 0
    ensures Sum(s) == 0
  {
    if s != [] {
      SumZero(s[1..]);
    }
  }

  lemma {:induction false} DroppedHas<T>(s: seq<T>, x: T)
    ensures forall y :: y in Dropped(s, x) <==> y in s && y != x
    ensures x !in s ==> Dropped(s, x) == s
  {
    if s != [] {
      DroppedHas(s[1..], x);
      assert s == [s[0]] + s[1..];
    }
  }

  /** In a list without repetition release deletes one entry, if any. */
  lemma {:induction false} DroppedOnce<T>(s: seq<T>, x: T)
    requires Distinct(s)
    ensures Distinct(Dropped(s, x)) && |Dropped(s, x)| == |s| - if x in s then 1 else 0
  {
    DroppedHas(s, x);
    if s != [] {
      var t := s[1..];
      assert s == [s[0]] + t && s[0] !in t;
      DroppedOnce(t, x);
      DroppedHas(t, x);
      if s[0] == x {
        assert Dropped(s, x) == Dropped(t, x);
      } else {
        assert Dropped(s, x) == [s[0]] + Dropped(t, x);
      }
    }
  }

  // What a step that leaves a part alone keeps.

  ghost predicate SameSlots(w: World, w': World)
    requires WellFormed(w) && WellFormed(w')
  {
    && w'.live == w.live && w'.lost == w.lost && w'.moduleNum == w.moduleNum && w'.recreated == w.recreated
    && (forall s :: 0 <= s <= NR_DEVS ==>
          && w'.devs[s].binded == w.devs[s].binded && w'.devs[s].sts == w.devs[s].sts
          && w'.devs[s].nullDev == w.devs[s].nullDev)
  }

  lemma SlotsUnchanged(w: World, w': World)
    requires WellFormed(w) && WellFormed(w') && Slots(w) && SameSlots(w, w')
    ensures Slots(w')
  {
    forall s | 0 <= s < NR_DEVS ensures SlotOk(w', s) {
      assert SlotOk(w, s);
    }
  }

  ghost predicate SameContents(w: World, w': World)
    requires WellFormed(w) && WellFormed(w')
  {
    forall s :: 0 <= s <= NR_DEVS ==>
      w'.devs[s].sts == w.devs[s].sts && w'.devs[s].bars == w.devs[s].bars && w'.devs[s].prjs == w.devs[s].prjs
  }

  lemma ContentsUnchanged(w: World, w': World)
    requires WellFormed(w) && WellFormed(w') && Contents(w) && SameContents(w, w')
    ensures Contents(w')
  {
    forall s | 0 <= s <= NR_DEVS ensures ContentOk(w'.devs[s]) {
      assert ContentOk(w.devs[s]);
    }
  }

  lemma FilesUnchanged(w: World, w': World)
    requires WellFormed(w) && WellFormed(w') && Files(w) && w'.files == w.files && w'.moved == w.moved
    requires forall s :: 0 <= s <= NR_DEVS ==>
               w'.devs[s].files == w.devs[s].files && w'.devs[s].fileRef == w.devs[s].fileRef
    ensures Files(w')
  {
    forall s | 0 <= s < NR_DEVS ensures ListOk(w', s) {
      assert ListOk(w, s);
    }
    assert On(w', NR_DEVS) == On(w, NR_DEVS);
  }

  // Open and release.

  lemma OpenFiles(w: World, f: File, slot: nat, w': World)
    requires WellFormed(w) && Files(w) && f !in w.files && slot <= NR_DEVS && w' == Opened(w, f, slot)
    ensures Files(w')
  {
    forall s | 0 <= s < NR_DEVS ensures ListOk(w', s) {
      assert ListOk(w, s);
    }
    OpenNull(w, f, slot, w');
  }

  lemma OpenNull(w: World, f: File, slot: nat, w': World)
    requires WellFormed(w) && NullListOk(w) && f !in w.files && slot <= NR_DEVS && w' == Opened(w, f, slot)
    ensures NullListOk(w')
  {
    if slot == NR_DEVS {
      assert On(w', NR_DEVS) == On(w, NR_DEVS) + {f};
    } else {
      assert On(w', NR_DEVS) == On(w, NR_DEVS);
    }
  }

  lemma OpenKeeps(w: World, f: File, slot: nat, w': World)
    requires Inv(w) && f !in w.files && slot <= NR_DEVS && w' == Opened(w, f, slot)
    ensures Inv(w')
  {
    OpenFiles(w, f, slot, w');
    SlotsUnchanged(w, w');
    ContentsUnchanged(w, w');
  }

  lemma ReleaseFiles(w: World, f: File, w': World)
    requires WellFormed(w) && Files(w) && f in w.files && w' == Released(w, f)
    ensures Files(w')
  {
    var slot := w.files[f];
    DroppedHas(w.devs[slot].files, f);
    if slot < NR_DEVS {
      assert ListOk(w, slot);
      DroppedOnce(w.devs[slot].files, f);
      assert ListOk(w', slot);
    }
    forall s | 0 <= s < NR_DEVS ensures ListOk(w', s) {
      assert ListOk(w, s);
    }
    ReleaseNull(w, f, w');
  }

  lemma ReleaseNull(w: World, f: File, w': World)
    requires WellFormed(w) && NullListOk(w) && f in w.files && w' == Released(w, f)
    ensures NullListOk(w')
  {
    if w.files[f] == NR_DEVS {
      DroppedHas(w.devs[NR_DEVS].files, f);
      DroppedOnce(w.devs[NR_DEVS].files, f);
      assert On(w', NR_DEVS) == On(w, NR_DEVS) - {f};
    } else {
      assert On(w', NR_DEVS) == On(w, NR_DEVS);
    }
  }

  lemma ReleaseKeeps(w: World, f: File, w': World)
    requires Inv(w) && f in w.files && w' == Released(w, f)
    ensures Inv(w')
  {
    ReleaseFiles(w, f, w');
    SlotsUnchanged(w, w');
    ContentsUnchanged(w, w');
  }

  // Probe.

  lemma RecordOk(r: Resource)
    requires ResourceOk(r)
    ensures BarOk(Record(r))
  {
    if r.start != 0 {
      RecordedSize(r.start, r.end, Record(r));
    }
  }

  lemma RecordAllOk(rs: seq<Resource>)
    requires |rs| == 6 && forall i :: 0 <= i < 6 ==> ResourceOk(rs[i])
    ensures BarsOk(RecordAll(rs))
  {
    forall i | 0 <= i < 6 ensures BarOk(RecordAll(rs)[i]) {
      RecordOk(rs[i]);
    }
  }

  lemma ServesMore(live: map<Board, nat>, b: Board, s: nat, live': map<Board, nat>)
    requires Injective(live) && b !in live && !Serves(live, s) && live' == live[b := s]
    ensures Injective(live') && |live'| == |live| + 1
    ensures forall t :: Serves(live', t) <==> t == s || Serves(live, t)
  {
    assert b in live' && live'[b] == s;
    forall t | Serves(live, t) ensures Serves(live', t) {
      var c :| c in live && live[c] == t;
      assert c in live' && live'[c] == t;
    }
  }

  lemma ServesLess(live: map<Board, nat>, b: Board, live': map<Board, nat>)
    requires Injective(live) && b in live && live' == live - {b}
    ensures Injective(live') && |live'| == |live| - 1 && Serves(live, live[b])
    ensures forall t :: Serves(live', t) <==> t != live[b] && Serves(live, t)
  {
    forall t | t != live[b] && Serves(live, t) ensures Serves(live', t) {
      var c :| c in live && live[c] == t;
      assert c in live' && live'[c] == t;
    }
    assert live'.Keys == live.Keys - {b};
  }

  lemma ProbeSlots(w: World, b: Board, hw: Hardware, s: nat, w': World)
    requires WellFormed(w) && Slots(w) && b !in w.live && ProbeOk(hw) && s < NR_DEVS && !w.devs[s].binded
    requires w' == Occupied(w, b, hw, s) && WellFormed(w')
    ensures Slots(w')
  {
    assert SlotOk(w, s);
    ServesMore(w.live, b, s, w.live[b := s]);
    forall t | 0 <= t < NR_DEVS ensures SlotOk(w', t) {
      assert SlotOk(w, t);
    }
  }

  lemma ClaimedOk(d: Dev, hw: Hardware)
    requires ContentOk(d) && ProbeOk(hw)
    ensures ContentOk(Claimed(d, hw))
  {
    if hw.Binds? {
      RecordAllOk(hw.resources);
    }
  }

  lemma ProbeContents(w: World, b: Board, hw: Hardware, s: nat, w': World)
    requires WellFormed(w) && Contents(w) && ProbeOk(hw) && s < NR_DEVS
    requires w' == Occupied(w, b, hw, s) && WellFormed(w')
    ensures Contents(w')
  {
    assert ContentOk(w.devs[s]);
    ClaimedOk(w.devs[s], hw);
    forall t | 0 <= t <= NR_DEVS ensures ContentOk(w'.devs[t]) {
      assert ContentOk(w.devs[t]);
    }
  }

  lemma ProbeShape(w: World, b: Board, hw: Hardware, s: nat, w': World)
    requires WellFormed(w) && ProbeOk(hw) && s < NR_DEVS && w' == Occupied(w, b, hw, s)
    ensures WellFormed(w') && w'.files == w.files && w'.moved == w.moved
    ensures forall t :: 0 <= t <= NR_DEVS ==>
              w'.devs[t].files == w.devs[t].files && w'.devs[t].fileRef == w.devs[t].fileRef
    ensures w'.devs[NR_DEVS] == w.devs[NR_DEVS]
  {
  }

  lemma ProbeKeeps(w: World, b: Board, hw: Hardware, w': World)
    requires Inv(w) && Possible(w, Probe(b, hw)) && w' == Probed(w, b, hw)
    ensures Inv(w')
  {
    var s := FirstFree(w.devs, 0);
    if s < NR_DEVS {
      ProbeShape(w, b, hw, s, w');
      FilesUnchanged(w, w');
      ProbeSlots(w, b, hw, s, w');
      ProbeContents(w, b, hw, s, w');
    }
  }

  // Remove.

  lemma RemoveFiles(w: World, b: Board, w': World)
    requires WellFormed(w) && Files(w) && b in w.live && w' == Removed(w, b)
    ensures Files(w')
  {
    var slot := w.live[b];
    assert ListOk(w, slot);
    forall s | 0 <= s < NR_DEVS ensures ListOk(w', s) {
      assert ListOk(w, s);
    }
    RemoveNull(w, b, slot, w');
  }

  lemma RemoveNull(w: World, b: Board, slot: nat, w': World)
    requires WellFormed(w) && NullListOk(w) && b in w.live && slot == w.live[b] && ListOk(w, slot)
    requires w' == Removed(w, b)
    ensures NullListOk(w')
  {
    var list := w.devs[slot].files;
    MovedToNull(w, slot, w'.files);
    assert On(w', NR_DEVS) == On(w, NR_DEVS) + Elements(list);
    DistinctSize(list);
    SumUpdate(w.moved, slot, w.moved[slot] + |list|);
  }

  lemma MovedToNull(w: World, slot: nat, files: map<File, nat>)
    requires WellFormed(w) && slot < NR_DEVS && ListOk(w, slot) && files == Redirected(w.files, w.devs[slot].files)
    ensures forall f :: f in files && files[f] == NR_DEVS <==> f in On(w, NR_DEVS) || f in w.devs[slot].files
    ensures forall f :: !(f in On(w, NR_DEVS) && f in w.devs[slot].files)
  {
  }

  lemma RemoveSlots(w: World, b: Board, w': World)
    requires WellFormed(w) && Slots(w) && b in w.live && w' == Removed(w, b)
    ensures Slots(w')
  {
    var slot := w.live[b];
    ServesLess(w.live, b, w'.live);
    forall t | 0 <= t < NR_DEVS ensures SlotOk(w', t) {
      assert SlotOk(w, t);
    }
  }

  lemma RemoveKeeps(w: World, b: Board, w': World)
    requires Inv(w) && b in w.live && w' == Removed(w, b)
    ensures Inv(w')
  {
    RemoveFiles(w, b, w');
    RemoveSlots(w, b, w');
    assert ContentOk(w.devs[w.live[b]]);
    forall t | 0 <= t <= NR_DEVS ensures ContentOk(w'.devs[t]) {
      assert ContentOk(w.devs[t]);
    }
  }

  // Write.

  lemma WriteKeeps(w: World, f: File, pos: nat, data: seq<Byte>, n: nat, w': World)
    requires Inv(w) && f in w.files && BarOf(pos) < 6 && w' == Stored(w, f, pos, data, n)
    ensures Inv(w')
  {
    FilesUnchanged(w, w');
    SlotsUnchanged(w, w');
    assert ContentOk(w.devs[w.files[f]]);
    forall t | 0 <= t <= NR_DEVS ensures ContentOk(w'.devs[t]) {
      assert ContentOk(w.devs[t]);
    }
  }

  lemma StepKeeps(w: World, c: Call)
    requires Inv(w) && Possible(w, c)
    ensures Inv(Next(w, c))
  {
    match c
    case Open(f, slot, interrupted) => if !interrupted { OpenKeeps(w, f, slot, Next(w, c)); }
    case Release(f) => ReleaseKeeps(w, f, Next(w, c));
    case Probe(b, hw) => ProbeKeeps(w, b, hw, Next(w, c));
    case Remove(b) => RemoveKeeps(w, b, Next(w, c));
    case Write(f, data, count, pos, _, _) =>
      if Answer(w, c).Transferred? {
        WriteKeeps(w, f, pos, data, Answer(w, c).n, Next(w, c));
      }
    case _ =>
  }

  lemma InitInv()
    ensures Inv(Init())
  {
    InitSlots(Init());
    InitFiles(Init());
  }

  lemma InitSlots(w: World)
    requires w == Init()
    ensures WellFormed(w) && NullOk(w.devs[NR_DEVS]) && Slots(w)
  {
    forall s | 0 <= s < NR_DEVS ensures SlotOk(w, s) {
    }
  }

  lemma InitFiles(w: World)
    requires w == Init() && WellFormed(w)
    ensures Files(w) && Contents(w)
  {
    SumZero(w.moved);
    assert On(w, NR_DEVS) == {};
    forall s | 0 <= s < NR_DEVS ensures ListOk(w, s) {
      assert w.devs[s] == FreshDev();
    }
  }

  /** The invariant holds along every run. */
  lemma {:induction false} RunKeeps(w: World, calls: seq<Call>)
    requires Inv(w) && Run(w, calls)
    ensures Inv(After(w, calls))
    decreases |calls|
  {
    if calls != [] {
      StepKeeps(w, calls[0]);
      RunKeeps(Next(w, calls[0]), calls[1..]);
    }
  }

  lemma ReachableInv(w: World)
    requires Reachable(w)
    ensures Inv(w)
  {
    var calls :| Run(Init(), calls) && After(Init(), calls) == w;
    InitInv();
    RunKeeps(Init(), calls);
  }

  lemma ReachableNext(w: World, c: Call)
    requires Reachable(w) && WellFormed(w) && Possible(w, c)
    ensures Reachable(Next(w, c))
  {
    var calls :| Run(Init(), calls) && After(Init(), calls) == w;
    RunMore(Init(), calls, c);
  }

  lemma {:induction false} RunMore(w: World, calls: seq<Call>, c: Call)
    requires Run(w, calls) && WellFormed(After(w, calls)) && Possible(After(w, calls), c)
    ensures Run(w, calls + [c]) && After(w, calls + [c]) == Next(After(w, calls), c)
    decreases |calls|
  {
    if calls == [] {
      assert [c][1..] == [] && calls + [c] == [c];
      assert Run(Next(w, c), []);
    } else {
      assert (calls + [c])[0] == calls[0] && (calls + [c])[1..] == calls[1..] + [c];
      RunMore(Next(w, calls[0]), calls[1..], c);
    }
  }
}
