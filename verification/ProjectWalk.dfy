/**
 * The walk over the project blocks a board describes in its BARs
 * (pcieuni_fill_prj_info and pcieuni_get_prjinfo).
 */
module ProjectWalk {
  import opened Common
  import opened BarTransfer

  const MAGIC: Word := 0x50524F4A
  const TWO31: int := 0x8000_0000

  /** The words of a BAR by byte offset. They do not change during a walk. */
  type Memory = map<int, Word>

  /** ioread32: a read nobody answers gives all ones. */
  function Load(mem: Memory, at: int): Word {
    if at in mem then mem[at] else 0xFFFF_FFFF
  }

  datatype Project = Project(id: Word, version: Word, date: Word, reserved: Word, next: Word)

  /** A u32 stored in an int. */
  function Signed(w: Word): int {
    if w < TWO31 then w else w - TWO32
  }

  function ProjectAt(mem: Memory, at: int): Project {
    Project(Load(mem, at + 0x04), Load(mem, at + 0x08), Load(mem, at + 0x0C), Load(mem, at + 0x10), Load(mem, at + 0x18))
  }

  /** What pcieuni_fill_prj_info returns: where the chain goes on, zero at a word that is no project. */
  function NextOf(mem: Memory, at: int): (next: int)
    ensures -TWO31 <= next < TWO31
  {
    if Load(mem, at) == MAGIC then Signed(Load(mem, at + 0x18)) else 0
  }

  /** The offset the walk from start has after k steps. */
  function Offset(mem: Memory, start: int, k: nat): int {
    if k == 0 then start
    else
      var at := Offset(mem, start, k - 1);
      if at == 0 then 0 else NextOf(mem, at)
  }

  /** The projects the first k steps meet, in chain order. */
  function Chain(mem: Memory, start: int, k: nat): seq<Project> {
    if k == 0 then []
    else
      var at := Offset(mem, start, k - 1);
      Chain(mem, start, k - 1) + if at != 0 && Load(mem, at) == MAGIC then [ProjectAt(mem, at)] else []
  }

  ghost predicate Ends(mem: Memory, start: int) {
    exists k: nat :: Offset(mem, start, k) == 0
  }

  /** Some offset other than zero is met twice. */
  ghost predicate Repeats(mem: Memory, start: int) {
    exists i: nat, j: nat :: i < j && Offset(mem, start, i) != 0 && Offset(mem, start, i) == Offset(mem, start, j)
  }

  // When the walk ends.

  /** A chain that ended stays at zero and meets no more projects. */
  lemma {:induction false} StaysAtZero(mem: Memory, start: int, k: nat, n: nat)
    requires k <= n && Offset(mem, start, k) == 0
    ensures Offset(mem, start, n) == 0 && Chain(mem, start, n) == Chain(mem, start, k)
    decreases n
  {
    if k < n {
      StaysAtZero(mem, start, k, n - 1);
    }
  }

  /** Equal offsets go on in the same way. */
  lemma {:induction false} SameFromThere(mem: Memory, start: int, i: nat, j: nat, m: nat)
    requires Offset(mem, start, i) == Offset(mem, start, j)
    ensures Offset(mem, start, i + m) == Offset(mem, start, j + m)
    decreases m
  {
    if m > 0 {
      SameFromThere(mem, start, i, j, m - 1);
    }
  }

  /** A repeated offset comes back for ever. */
  lemma {:induction false} ComesBack(mem: Memory, start: int, i: nat, j: nat, r: nat)
    requires i < j && Offset(mem, start, i) == Offset(mem, start, j)
    ensures Offset(mem, start, i + r * (j - i)) == Offset(mem, start, i)
    decreases r
  {
    if r > 0 {
      ComesBack(mem, start, i, j, r - 1);
      SameFromThere(mem, start, i, j, (r - 1) * (j - i));
      assert j + (r - 1) * (j - i) == i + r * (j - i);
    }
  }

  /** The walk ends exactly when no offset repeats. */
  lemma EndsExactly(mem: Memory, start: int)
    requires -TWO31 <= start < TWO31
    ensures Ends(mem, start) <==> !Repeats(mem, start)
  {
    if Repeats(mem, start) {
      var i: nat, j: nat :| i < j && Offset(mem, start, i) != 0 && Offset(mem, start, i) == Offset(mem, start, j);
      forall k: nat ensures Offset(mem, start, k) != 0 {
        if Offset(mem, start, k) == 0 {
          ComesBack(mem, start, i, j, k);
          Grows(k, j - i);
          StaysAtZero(mem, start, k, i + k * (j - i));
        }
      }
    } else if !Ends(mem, start) {
      Pigeonhole(mem, start);
    }
  }

  lemma Grows(k: nat, d: nat)
    requires d > 0
    ensures k <= k * d
  {
  }

  /** Every walk meets at most 2^32 offsets before it ends or repeats one. */
  lemma Pigeonhole(mem: Memory, start: int)
    requires -TWO31 <= start < TWO31
    ensures Repeats(mem, start) || Ends(mem, start)
  {
    if !Repeats(mem, start) && !Ends(mem, start) {
      Visits(mem, start, TWO32 + 1);
      VisitsRange(mem, start, TWO32 + 1);
      RangeSize(-TWO31, TWO32);
      SubsetSize(Visited(mem, start, TWO32 + 1), Range(-TWO31, TWO32));
    }
  }

  /** The offsets of the first n steps. */
  ghost function Visited(mem: Memory, start: int, n: nat): set<int> {
    set k: nat | k < n :: Offset(mem, start, k)
  }

  lemma {:induction false} Visits(mem: Memory, start: int, n: nat)
    requires !Repeats(mem, start) && !Ends(mem, start)
    ensures |Visited(mem, start, n)| == n
    decreases n
  {
    if n > 0 {
      Visits(mem, start, n - 1);
      VisitsNew(mem, start, n - 1);
      VisitedMore(mem, start, n - 1);
    }
  }

  lemma VisitsNew(mem: Memory, start: int, n: nat)
    requires !Repeats(mem, start) && !Ends(mem, start)
    ensures Offset(mem, start, n) !in Visited(mem, start, n)
  {
    assert Offset(mem, start, n) != 0;
  }

  lemma VisitedMore(mem: Memory, start: int, n: nat)
    ensures Visited(mem, start, n + 1) == Visited(mem, start, n) + {Offset(mem, start, n)}
  {
  }

  lemma VisitsRange(mem: Memory, start: int, n: nat)
    requires -TWO31 <= start < TWO31
    ensures Visited(mem, start, n) <= Range(-TWO31, TWO32)
  {
    forall k: nat | k < n ensures Offset(mem, start, k) in Range(-TWO31, TWO32) {
    }
  }

  // The lists.

  function Reverse<T>(s: seq<T>): (r: seq<T>)
    ensures |r| == |s|
    ensures forall i :: 0 <= i < |s| ==> r[i] == s[|s| - 1 - i]
  {
    if s == [] then [] else Reverse(s[1..]) + [s[0]]
  }

  lemma ReversePush<T>(s: seq<T>, x: T)
    ensures Reverse(s + [x]) == [x] + Reverse(s)
  {
  }

  /** The walk after k steps: where it stands, what it has listed in front of tail, and what it has read. */
  ghost predicate Walked(mem: Memory, start: int, k: nat, at: int, list: seq<Project>, tail: seq<Project>, num: int, reading: set<int>) {
    && at == Offset(mem, start, k) && reading == Reads(mem, start, k)
    && num == |Chain(mem, start, k)| && list == Reverse(Chain(mem, start, k)) + tail
  }

  /** One step of the walk. */
  lemma WalkStep(mem: Memory, start: int, k: nat, at: int, list: seq<Project>, tail: seq<Project>, num: int, reading: set<int>,
                 list': seq<Project>, num': int)
    requires Walked(mem, start, k, at, list, tail, num, reading) && at != 0
    requires list' == (if Load(mem, at) == MAGIC then [ProjectAt(mem, at)] + list else list)
    requires num' == if Load(mem, at) == MAGIC then num + 1 else num
    ensures Walked(mem, start, k + 1, NextOf(mem, at), list', tail, num', reading + ReadsAt(mem, at))
  {
    var p, chain := ProjectAt(mem, at), Chain(mem, start, k);
    ReversePush(chain, p);
    assert [p] + Reverse(chain) + tail == [p] + (Reverse(chain) + tail);
  }

  /** The end of the chain, whichever step shows it. */
  ghost function Whole(mem: Memory, start: int): seq<Project>
    requires Ends(mem, start)
  {
    var k: nat :| Offset(mem, start, k) == 0;
    Chain(mem, start, k)
  }

  lemma WholeIsChain(mem: Memory, start: int, k: nat)
    requires Offset(mem, start, k) == 0
    ensures Ends(mem, start) && Whole(mem, start) == Chain(mem, start, k)
  {
    var n: nat :| Offset(mem, start, n) == 0 && Whole(mem, start) == Chain(mem, start, n);
    if n <= k {
      StaysAtZero(mem, start, n, k);
    } else {
      StaysAtZero(mem, start, k, n);
    }
  }

  /** The whole chain starts with the project at the first offset, and goes on with the chain from its next. */
  lemma WholeUnfolds(mem: Memory, start: int)
    requires Ends(mem, start)
    ensures start == 0 ==> Whole(mem, start) == []
    ensures start != 0 && Load(mem, start) != MAGIC ==> Whole(mem, start) == []
    ensures start != 0 && Load(mem, start) == MAGIC ==>
              var next := Signed(Load(mem, start + 0x18));
              Ends(mem, next) && Whole(mem, start) == [ProjectAt(mem, start)] + Whole(mem, next)
  {
    var k: nat :| Offset(mem, start, k) == 0;
    if start == 0 {
      WholeIsChain(mem, start, 0);
    } else {
      WholeStep(mem, start, k - 1);
    }
  }

  lemma WholeStep(mem: Memory, start: int, k: nat)
    requires start != 0 && Offset(mem, start, k + 1) == 0
    ensures Ends(mem, start) && Ends(mem, NextOf(mem, start))
    ensures Whole(mem, start) ==
            if Load(mem, start) == MAGIC then [ProjectAt(mem, start)] + Whole(mem, NextOf(mem, start)) else []
  {
    var next := NextOf(mem, start);
    ShiftChain(mem, start, k);
    WholeIsChain(mem, start, k + 1);
    WholeIsChain(mem, next, k);
    if Load(mem, start) != MAGIC {
      WholeIsChain(mem, next, 0);
    }
  }

  lemma {:induction false} ShiftChain(mem: Memory, start: int, k: nat)
    requires start != 0
    ensures Offset(mem, NextOf(mem, start), k) == Offset(mem, start, k + 1)
    ensures Chain(mem, start, k + 1) ==
            (if Load(mem, start) == MAGIC then [ProjectAt(mem, start)] else []) + Chain(mem, NextOf(mem, start), k)
    decreases k
  {
    if k > 0 {
      ShiftChain(mem, start, k - 1);
    } else {
      assert Chain(mem, start, 1) == Chain(mem, start, 0) + if Load(mem, start) == MAGIC then [ProjectAt(mem, start)] else [];
    }
  }

  // Projects laid out in memory are found again.

  /** A project block at an offset: the magic word, then the fields where the hardware puts them. */
  ghost predicate Block(mem: Memory, at: int, p: Project) {
    && Load(mem, at) == 0x50524F4A
    && Load(mem, at + 0x04) == p.id && Load(mem, at + 0x08) == p.version && Load(mem, at + 0x0C) == p.date
    && Load(mem, at + 0x10) == p.reserved && Load(mem, at + 0x18) == p.next
  }

  /** Each project stands at its offset and names the next one's; the last one names none. */
  ghost predicate LaidOut(mem: Memory, ats: seq<nat>, ps: seq<Project>) {
    && |ats| == |ps|
    && (forall i :: 0 <= i < |ps| ==> 0 < ats[i] < 0x8000_0000 && Block(mem, ats[i], ps[i]))
    && (forall i :: 0 <= i < |ps| ==> ps[i].next == if i + 1 < |ps| then ats[i + 1] else 0)
  }

  lemma BlockIs(mem: Memory, at: int, p: Project)
    requires Block(mem, at, p)
    ensures Load(mem, at) == MAGIC && ProjectAt(mem, at) == p && NextOf(mem, at) == Signed(p.next)
  {
  }

  lemma ChainMore(mem: Memory, start: int, k: nat, at: int, p: Project, chain: seq<Project>)
    requires at == Offset(mem, start, k) && at != 0 && Block(mem, at, p) && chain == Chain(mem, start, k)
    ensures Offset(mem, start, k + 1) == Signed(p.next) && Chain(mem, start, k + 1) == chain + [p]
  {
    BlockIs(mem, at, p);
  }

  lemma {:induction false} LaidOutStep(mem: Memory, ats: seq<nat>, ps: seq<Project>, k: nat)
    requires LaidOut(mem, ats, ps) && k <= |ps| != 0
    ensures Offset(mem, ats[0], k) == (if k < |ps| then ats[k] else 0) && Chain(mem, ats[0], k) == ps[..k]
    decreases k
  {
    if k > 0 {
      LaidOutStep(mem, ats, ps, k - 1);
      var p, c := LaidOutAt(mem, ats, ps, k - 1);
      ChainMore(mem, ats[0], k - 1, ats[k - 1], p, c);
    }
  }

  lemma LaidOutAt(mem: Memory, ats: seq<nat>, ps: seq<Project>, k: nat) returns (p: Project, c: seq<Project>)
    requires LaidOut(mem, ats, ps) && k < |ps|
    ensures ats[k] != 0 && Block(mem, ats[k], p) && Signed(p.next) == if k + 1 < |ps| then ats[k + 1] else 0
    ensures c == ps[..k] && ps[..k + 1] == c + [p]
  {
    p, c := ps[k], ps[..k];
    assert Block(mem, ats[k], ps[k]);
    assert k + 1 < |ps| ==> ats[k + 1] < 0x8000_0000;
  }

  /** The chain of projects laid out in memory ends, and is those projects in that order. */
  lemma LaidOutIsWhole(mem: Memory, ats: seq<nat>, ps: seq<Project>)
    requires LaidOut(mem, ats, ps) && ps != []
    ensures Ends(mem, ats[0]) && Whole(mem, ats[0]) == ps
  {
    LaidOutStep(mem, ats, ps, |ps|);
    WholeIsChain(mem, ats[0], |ps|);
    assert ps[..|ps|] == ps;
  }

  /** BAR i is mapped and starts with a project. */
  ghost predicate Starts(bars: seq<Option<Memory>>, i: nat) {
    i < |bars| && bars[i].Some? && Load(bars[i].value, 0) == 0x50524F4A
  }

  /** The projects found are those the named BARs start with. */
  ghost predicate BlocksOf(bars: seq<Option<Memory>>, which: seq<nat>, found: seq<Project>) {
    && |which| == |found|
    && (forall k :: 0 <= k < |which| ==> Starts(bars, which[k]) && Block(bars[which[k]].value, 0, found[k]))
  }

  ghost predicate Increasing(s: seq<nat>) {
    forall i, j :: 0 <= i < j < |s| ==> s[i] < s[j]
  }

  /** Exactly the BARs below n that start with a project are named. */
  ghost predicate Names(bars: seq<Option<Memory>>, which: seq<nat>, n: nat) {
    forall i: nat :: i in which <==> i < n && Starts(bars, i)
  }

  /** The projects of the BARs below n, in the order of the BARs, each once. */
  ghost predicate Listed(bars: seq<Option<Memory>>, n: nat, which: seq<nat>, found: seq<Project>) {
    BlocksOf(bars, which, found) && Increasing(which) && Names(bars, which, n)
  }

  lemma NamesMore(bars: seq<Option<Memory>>, which: seq<nat>, n: nat)
    requires Names(bars, which, n)
    ensures Names(bars, if Starts(bars, n) then which + [n] else which, n + 1)
    ensures forall k :: k in which ==> k < n
  {
  }

  lemma ListedMore(bars: seq<Option<Memory>>, n: nat, which: seq<nat>, found: seq<Project>, which': seq<nat>, found': seq<Project>)
    requires n < |bars| && Listed(bars, n, which, found)
    requires if Starts(bars, n) then which' == which + [n] && found' == found + [ProjectAt(bars[n].value, 0)]
             else which' == which && found' == found
    ensures Listed(bars, n + 1, which', found')
  {
    NamesMore(bars, which, n);
    if Starts(bars, n) {
      BlocksMore(bars, which, found, n, ProjectAt(bars[n].value, 0));
    }
  }

  /** The BARs below n that start with a project. */
  ghost function Which(bars: seq<Option<Memory>>, n: nat): seq<nat> {
    if n == 0 then [] else Which(bars, n - 1) + if Starts(bars, n - 1) then [n - 1] else []
  }

  /** The blocks at the bases of BARs 1 to 5 are found in the order of the BARs, each of them once. */
  lemma {:induction false} BasesAre(bars: seq<Option<Memory>>, n: nat)
    requires n <= |bars|
    ensures Listed(bars, n, Which(bars, n), Bases(bars, n))
    decreases n
  {
    if n == 0 {
      ListedNone(bars);
    } else {
      BasesAre(bars, n - 1);
      BasesGrow(bars, n - 1);
      ListedMore(bars, n - 1, Which(bars, n - 1), Bases(bars, n - 1), Which(bars, n), Bases(bars, n));
    }
  }

  lemma ListedNone(bars: seq<Option<Memory>>)
    ensures Listed(bars, 0, [], [])
  {
  }

  lemma BasesGrow(bars: seq<Option<Memory>>, n: nat)
    requires n < |bars|
    ensures if Starts(bars, n) then Bases(bars, n + 1) == Bases(bars, n) + [ProjectAt(bars[n].value, 0)]
            else Bases(bars, n + 1) == Bases(bars, n)
  {
  }

  lemma BlocksMore(bars: seq<Option<Memory>>, which: seq<nat>, found: seq<Project>, i: nat, p: Project)
    requires BlocksOf(bars, which, found) && Increasing(which) && (forall k :: k in which ==> k < i)
    requires Starts(bars, i) && p == ProjectAt(bars[i].value, 0)
    ensures BlocksOf(bars, which + [i], found + [p]) && Increasing(which + [i])
  {
    assert Block(bars[i].value, 0, p);
    var s := which + [i];
    forall j, k | 0 <= j < k < |s| ensures s[j] < s[k] {
      assert s[j] == which[j] && which[j] in which;
    }
  }

  // What the walk reads.

  /** The offsets pcieuni_fill_prj_info reads at one place. */
  function ReadsAt(mem: Memory, at: int): set<int> {
    if Load(mem, at) == MAGIC then {at, at + 0x04, at + 0x08, at + 0x0C, at + 0x10, at + 0x18} else {at}
  }

  /** Step k of the walk from start reads offset x. */
  ghost predicate ReadsIn(mem: Memory, start: int, k: nat, x: int) {
    Offset(mem, start, k) != 0 && x in ReadsAt(mem, Offset(mem, start, k))
  }

  /** Some step does. */
  ghost predicate ReadsWord(mem: Memory, start: int, x: int) {
    exists k: nat :: ReadsIn(mem, start, k, x)
  }

  /** The offsets read in the first n steps. */
  ghost function Reads(mem: Memory, start: int, n: nat): set<int> {
    if n == 0 then {}
    else
      var at := Offset(mem, start, n - 1);
      Reads(mem, start, n - 1) + if at != 0 then ReadsAt(mem, at) else {}
  }

  lemma {:induction false} ReadsHas(mem: Memory, start: int, n: nat, x: int)
    ensures x in Reads(mem, start, n) <==> exists k: nat :: k < n && ReadsIn(mem, start, k, x)
    decreases n
  {
    if n > 0 {
      ReadsHas(mem, start, n - 1, x);
      assert x in Reads(mem, start, n) <==> x in Reads(mem, start, n - 1) || ReadsIn(mem, start, n - 1, x);
    }
  }

  /** The steps up to the end of the chain read everything the walk reads. */
  lemma ReadsAll(mem: Memory, start: int, n: nat)
    requires Offset(mem, start, n) == 0
    ensures forall x :: x in Reads(mem, start, n) <==> ReadsWord(mem, start, x)
  {
    forall k: nat, x | ReadsIn(mem, start, k, x) ensures k < n {
      if n <= k {
        StaysAtZero(mem, start, n, k);
      }
    }
    forall x ensures x in Reads(mem, start, n) <==> ReadsWord(mem, start, x) {
      ReadsHas(mem, start, n, x);
    }
  }

  /** The block of step k fits in a BAR of the given length: 0x1C bytes for a project, one word for anything else. */
  ghost predicate FitsIn(mem: Memory, start: int, k: nat, length: nat) {
    var at := Offset(mem, start, k);
    at != 0 ==> 0 <= at && at + (if Load(mem, at) == MAGIC then 0x1C else 4) <= length
  }

  /** Every word the walk reads lies inside the BAR exactly when every block of the chain fits; no code checks it. */
  lemma ReadsInsideExactly(mem: Memory, start: int, length: nat)
    ensures (forall x :: ReadsWord(mem, start, x) ==> 0 <= x && x + 4 <= length) <==>
            (forall k: nat :: FitsIn(mem, start, k, length))
  {
    if forall k: nat :: FitsIn(mem, start, k, length) {
      forall x | ReadsWord(mem, start, x) ensures 0 <= x && x + 4 <= length {
        var k: nat :| ReadsIn(mem, start, k, x);
        assert FitsIn(mem, start, k, length);
      }
    }
    if forall x :: ReadsWord(mem, start, x) ==> 0 <= x && x + 4 <= length {
      forall k: nat ensures FitsIn(mem, start, k, length) {
        if Offset(mem, start, k) != 0 {
          ReadsEnds(mem, start, k);
        }
      }
    }
  }

  /** The first and the last word of a block are read. */
  lemma ReadsEnds(mem: Memory, start: int, k: nat)
    requires Offset(mem, start, k) != 0
    ensures var at := Offset(mem, start, k);
            ReadsWord(mem, start, at) && (Load(mem, at) == MAGIC ==> ReadsWord(mem, start, at + 0x18))
  {
    var at := Offset(mem, start, k);
    assert ReadsIn(mem, start, k, at);
    assert Load(mem, at) == MAGIC ==> ReadsIn(mem, start, k, at + 0x18);
  }

  /** A board can send the walk outside, in front of the BAR whatever its length: the offset is signed. */
  lemma ReadsOutside()
    ensures exists mem :: IsBoard(mem) && Ends(mem, Signed(BoardNext(mem))) && ReadsWord(mem, Signed(BoardNext(mem)), -4)
  {
    var mem: Memory := map[0 := 0x424F5244, 0x18 := 0xFFFF_FFFC];
    var start := Signed(BoardNext(mem));
    assert ReadsIn(mem, start, 0, -4);
    assert Offset(mem, start, 1) == 0;
  }

  // BARs 1 to 5, where every round reads the block at the base again.

  /** The loop variable after k rounds: one before the first, then what the block at the base says. */
  function BaseRound(mem: Memory, k: nat): int {
    if k == 0 then 1
    else if BaseRound(mem, k - 1) == 0 then 0 else NextOf(mem, 0)
  }

  predicate BaseEnds(mem: Memory) {
    NextOf(mem, 0) == 0
  }

  /** Such a loop ends exactly when the base holds no project or one without a successor. */
  lemma {:induction false} BaseEndsExactly(mem: Memory)
    ensures (exists k: nat :: BaseRound(mem, k) == 0) <==> BaseEnds(mem)
  {
    if BaseEnds(mem) {
      assert BaseRound(mem, 1) == 0;
    } else {
      forall k: nat ensures BaseRound(mem, k) != 0 {
        NeverZero(mem, k);
      }
    }
  }

  lemma {:induction false} NeverZero(mem: Memory, k: nat)
    requires !BaseEnds(mem)
    ensures BaseRound(mem, k) != 0
  {
    if k > 0 {
      NeverZero(mem, k - 1);
    }
  }

  /** The projects at the bases of the mapped BARs among the first n. */
  function Bases(bars: seq<Option<Memory>>, n: nat): seq<Project>
    requires n <= |bars|
  {
    if n == 0 then []
    else
      Bases(bars, n - 1) +
      match bars[n - 1]
      case Some(mem) => if Load(mem, 0) == MAGIC then [ProjectAt(mem, 0)] else []
      case None => []
  }

  lemma BasesStep(bars: seq<Option<Memory>>, i: nat, found: seq<Project>, tail: seq<Project>)
    returns (next: seq<Project>)
    requires i < |bars| && found == Bases(bars, i)
    ensures next == Bases(bars, i + 1)
    ensures bars[i].Some? && Load(bars[i].value, 0) == MAGIC ==>
              |next| == |found| + 1 && Reverse(next) + tail == [ProjectAt(bars[i].value, 0)] + (Reverse(found) + tail)
    ensures (bars[i].Some? && Load(bars[i].value, 0) == MAGIC) || next == found
  {
    next := Bases(bars, i + 1);
    if bars[i].Some? && Load(bars[i].value, 0) == MAGIC {
      var p := ProjectAt(bars[i].value, 0);
      ReversePush(found, p);
      assert [p] + Reverse(found) + tail == [p] + (Reverse(found) + tail);
    }
  }

  // The board block in front.

  /** The magic word of a board, in either case. */
  predicate IsBoard(mem: Memory) {
    Load(mem, 0) == 0x424F5244 || Load(mem, 0) == 0x626F7264
  }

  /** Where the board says its chain starts. */
  function BoardNext(mem: Memory): Word {
    Load(mem, 0x18)
  }

  /** The two magic words, and the start of the chain: the board's word itself below 2^31, negative above. */
  lemma BoardExactly(mem: Memory)
    ensures IsBoard(mem) <==> Load(mem, 0) == 0x424F5244 || Load(mem, 0) == 0x626F7264
    ensures Load(mem, 0x18) < 0x8000_0000 ==> Signed(BoardNext(mem)) == Load(mem, 0x18)
    ensures Load(mem, 0x18) >= 0x8000_0000 ==> Signed(BoardNext(mem)) == Load(mem, 0x18) - 0x1_0000_0000 < 0
  {
  }

  predicate HasBoard(mems: seq<Option<Memory>>)
    requires |mems| == 6
  {
    mems[0].Some? && IsBoard(mems[0].value)
  }

  /** The search for projects in the mapped ones of six BARs comes to an end. */
  ghost predicate Returns(mems: seq<Option<Memory>>)
    requires |mems| == 6
  {
    HasBoard(mems) ==>
      if BoardNext(mems[0].value) != 0 then Ends(mems[0].value, Signed(BoardNext(mems[0].value)))
      else forall i :: 1 <= i < 6 && mems[i].Some? ==> exists k: nat :: BaseRound(mems[i].value, k) == 0
  }

  /** It does exactly when no offset of the chain repeats, or without a chain no base names a successor. */
  lemma ReturnsExactly(mems: seq<Option<Memory>>)
    requires |mems| == 6
    ensures Returns(mems) <==>
            (HasBoard(mems) ==>
               if BoardNext(mems[0].value) != 0 then !Repeats(mems[0].value, Signed(BoardNext(mems[0].value)))
               else forall i :: 1 <= i < 6 && mems[i].Some? ==> BaseEnds(mems[i].value))
  {
    if HasBoard(mems) {
      EndsExactly(mems[0].value, Signed(BoardNext(mems[0].value)));
      forall i | 1 <= i < 6 && mems[i].Some?
        ensures (exists k: nat :: BaseRound(mems[i].value, k) == 0) <==> BaseEnds(mems[i].value)
      {
        BaseEndsExactly(mems[i].value);
      }
    }
  }

  /** It need not: a project that names itself as its successor, ... */
  lemma ChainCanLoop()
    ensures exists mem :: IsBoard(mem) && BoardNext(mem) != 0 && !Returns([Some(mem), None, None, None, None, None])
  {
    var mem: Memory := map[0 := 0x424F5244, 0x18 := 0x100, 0x100 := MAGIC, 0x118 := 0x100];
    var mems := [Some(mem), None, None, None, None, None];
    assert Offset(mem, 0x100, 0) == 0x100 && Offset(mem, 0x100, 1) == 0x100;
    assert Repeats(mem, 0x100);
    ReturnsExactly(mems);
  }

  /** ... or a BAR 1 that starts with a project with a successor. */
  lemma BaseCanLoop()
    ensures exists mem, base :: IsBoard(mem) && BoardNext(mem) == 0 && !Returns([Some(mem), Some(base), None, None, None, None])
  {
    var mem: Memory := map[0 := 0x424F5244, 0x18 := 0];
    var base: Memory := map[0 := MAGIC, 0x18 := 0x100];
    var mems := [Some(mem), Some(base), None, None, None, None];
    ReturnsExactly(mems);
    assert mems[1].Some? && !BaseEnds(mems[1].value);
  }

  /** The projects it finds, the last one first. */
  ghost function Found(mems: seq<Option<Memory>>): seq<Project>
    requires |mems| == 6 && Returns(mems)
  {
    if !HasBoard(mems) then []
    else if BoardNext(mems[0].value) != 0 then Reverse(Whole(mems[0].value, Signed(BoardNext(mems[0].value))))
    else Reverse(Bases(mems[1..], 5))
  }

  /** The project fields of struct pcieuni_dev. */
  class ProjectInfo {
    var list: seq<Project>
    var startupPrjNum: int
    var boardNext: Word

    constructor (list: seq<Project>)
      ensures this.list == list && startupPrjNum == 0 && boardNext == 0
    {
      this.list, startupPrjNum, boardNext := list, 0, 0;
    }

    /** pcieuni_get_brdinfo, as far as projects need it. */
    method GetBrdInfo(mem: Option<Memory>) returns (found: bool)
      modifies this`boardNext
      ensures found <==> mem.Some? && (Load(mem.value, 0) == 0x424F5244 || Load(mem.value, 0) == 0x626F7264)
      ensures boardNext == if found then Load(mem.value, 0x18) else old(boardNext)
    {
      found := false;
      if mem.Some? {
        var word := Load(mem.value, 0);
        if word == 0x424F5244 || word == 0x626F7264 {
          found := true;
          boardNext := Load(mem.value, 0x18);
        }
      }
    }

    /** What a probe does with the BARs it has mapped. */
    method Search(mems: seq<Option<Memory>>)
      requires |mems| == 6 && Returns(mems)
      modifies this
      ensures list == Found(mems) + old(list)
    {
      ReturnsExactly(mems);
      var board := GetBrdInfo(mems[0]);
      if board {
        EndsExactly(mems[0].value, Signed(BoardNext(mems[0].value)));
        var _ := GetPrjInfo(mems[0].value, mems[1..]);
      }
    }

    /** pcieuni_fill_prj_info: a project block goes to the head of the list. */
    method Fill(mem: Memory, at: int) returns (next: int, ghost seen: set<int>)
      modifies this
      ensures next == NextOf(mem, at) && seen == ReadsAt(mem, at)
      ensures Load(mem, at) == MAGIC ==> list == [ProjectAt(mem, at)] + old(list)
      ensures Load(mem, at) == 0x50524F4A ==>
                && list == [Project(id := Load(mem, at + 0x04), version := Load(mem, at + 0x08), date := Load(mem, at + 0x0C),
                                    reserved := Load(mem, at + 0x10), next := Load(mem, at + 0x18))] + old(list)
                && startupPrjNum == old(startupPrjNum) + 1 && boardNext == 0
                && next == (if Load(mem, at + 0x18) < 0x8000_0000 then Load(mem, at + 0x18) else Load(mem, at + 0x18) - 0x1_0000_0000)
      ensures Load(mem, at) != 0x50524F4A ==>
                next == 0 && list == old(list) && startupPrjNum == old(startupPrjNum) && boardNext == old(boardNext)
    {
      next, seen := 0, {at};
      if Load(mem, at) == MAGIC {
        startupPrjNum := startupPrjNum + 1;
        var id, version, date, reserved := Load(mem, at + 0x04), Load(mem, at + 0x08), Load(mem, at + 0x0C), Load(mem, at + 0x10);
        boardNext := 0;
        var word := Load(mem, at + 0x18);
        seen := seen + {at + 0x04, at + 0x08, at + 0x0C, at + 0x10, at + 0x18};
        list := [Project(id, version, date, reserved, word)] + list;
        next := Signed(word);
      }
    }

    /** The chain in BAR 0. It returns when the chain ends, so that is what it needs. */
    method Walk(mem: Memory, start: int) returns (ghost seen: set<int>)
      requires Ends(mem, start)
      modifies this
      ensures forall x :: x in seen <==> ReadsWord(mem, start, x)
      ensures list == Reverse(Whole(mem, start)) + old(list)
      ensures startupPrjNum == old(startupPrjNum) + |Whole(mem, start)|
    {
      ghost var tail, before := list, startupPrjNum;
      ghost var end: nat :| Offset(mem, start, end) == 0;
      var at := start;
      ghost var k, reading := 0, {};
      while at != 0
        invariant 0 <= k <= end && Walked(mem, start, k, at, list, tail, startupPrjNum - before, reading)
        decreases end - k
      {
        ghost var was, num, here := list, startupPrjNum - before, at;
        ghost var more;
        at, more := Fill(mem, at);
        WalkStep(mem, start, k, here, was, tail, num, reading, list, startupPrjNum - before);
        k, reading := k + 1, reading + more;
      }
      WholeIsChain(mem, start, k);
      ReadsAll(mem, start, k);
      seen := reading;
    }

    /** One of the loops over BARs 1 to 5. */
    method WalkBase(mem: Memory)
      requires BaseEnds(mem)
      modifies this
      ensures var found := if Load(mem, 0) == MAGIC then [ProjectAt(mem, 0)] else [];
              list == found + old(list) && startupPrjNum == old(startupPrjNum) + |found|
    {
      var again := 1;
      ghost var rounds := 0;
      while again != 0
        invariant rounds <= 1 && again == 1 - rounds
        invariant var found := if Load(mem, 0) == MAGIC && rounds == 1 then [ProjectAt(mem, 0)] else [];
                  list == found + old(list) && startupPrjNum == old(startupPrjNum) + |found|
        decreases again
      {
        ghost var seen;
        again, seen := Fill(mem, 0);
        rounds := rounds + 1;
      }
    }

    /** BARs 1 to 5 one after the other. */
    method WalkBases(others: seq<Option<Memory>>)
      requires forall i :: 0 <= i < |others| && others[i].Some? ==> BaseEnds(others[i].value)
      modifies this
      ensures list == Reverse(Bases(others, |others|)) + old(list)
      ensures startupPrjNum == old(startupPrjNum) + |Bases(others, |others|)|
    {
      ghost var tail, found := list, [];
      for i := 0 to |others|
        invariant found == Bases(others, i)
        invariant list == Reverse(found) + tail && startupPrjNum == old(startupPrjNum) + |found|
      {
        ghost var next := BasesStep(others, i, found, tail);
        if others[i].Some? {
          WalkBase(others[i].value);
        }
        found := next;
      }
    }

    /** pcieuni_get_prjinfo: the chain in BAR 0 if the board names one, else the bases of BARs 1 to 5. */
    method GetPrjInfo(mem: Memory, others: seq<Option<Memory>>) returns (n: int)
      requires |others| == 5
      requires if boardNext != 0 then Ends(mem, Signed(boardNext))
               else forall i :: 0 <= i < 5 && others[i].Some? ==> BaseEnds(others[i].value)
      modifies this
      ensures n == startupPrjNum
      ensures var found := if old(boardNext) != 0 then Whole(mem, Signed(old(boardNext))) else Bases(others, 5);
              list == Reverse(found) + old(list) && n == |found|
    {
      startupPrjNum := 0;
      var next := Signed(boardNext);
      if next != 0 {
        ghost var _ := Walk(mem, next);
      } else {
        WalkBases(others);
      }
      n := startupPrjNum;
    }
  }

  /** A board with projects laid out in BAR 0 gives back those projects, the last one first, and their number. */
  method ReadBack(mem: Memory, ats: seq<nat>, ps: seq<Project>, others: seq<Option<Memory>>)
    returns (list: seq<Project>, n: int)
    requires LaidOut(mem, ats, ps) && ps != [] && |others| == 5
    requires Load(mem, 0) == 0x424F5244 || Load(mem, 0) == 0x626F7264
    requires Load(mem, 0x18) == ats[0]
    ensures n == |list| == |ps| && forall j :: 0 <= j < |ps| ==> list[j] == ps[|ps| - 1 - j]
  {
    LaidOutIsWhole(mem, ats, ps);
    var info := new ProjectInfo([]);
    var _ := info.GetBrdInfo(Some(mem));
    n := info.GetPrjInfo(mem, others);
    list := info.list;
  }
}
