/** The inductive invariant of the buffer list protocol, kept by every event. */
module ProtocolInvariant {
  import opened Common
  import opened Protocol

  /** The spinlock excludes; before shutdown its owner is inside a critical section. */
  ghost predicate Locks(s: State) {
    && s.held.Keys == s.pc.Keys
    && (s.lock.Some? ==> s.lock.value in s.pc)
    && (forall t :: t in s.pc && Critical(s.pc[t]) ==> s.lock == Some(t))
    && (s.lock.Some? && !Critical(s.pc[s.lock.value]) ==> s.shutdown)
  }

  /** The buffer a thread is appending. */
  function Adding(p: Pc): Option<Buf> {
    match p
    case AppendLock(b) => Some(b)
    case AppendLink(b) => Some(b)
    case _ => None
  }

  /** Created buffers are listed, being appended, destroyed or leaked, and only one of these. */
  ghost predicate Partition(s: State) {
    && Distinct(s.list)
    && (forall b :: b in s.flags <==> b in s.list || b in s.pending || b in s.destroyed || b in s.leaked)
    && (forall b :: b in s.list ==> b !in s.pending && b !in s.destroyed && b !in s.leaked)
    && s.pending !! s.destroyed && s.pending !! s.leaked && s.destroyed !! s.leaked
    && (forall t :: t in s.pc && Adding(s.pc[t]).Some? ==> Adding(s.pc[t]).value in s.pending)
    && (forall t, u :: t in s.pc && u in s.pc && t != u && Adding(s.pc[t]).Some? ==>
          Adding(s.pc[t]) != Adding(s.pc[u]))
    && (forall b {:trigger HasAdder(s, b)} :: b in s.pending ==> HasAdder(s, b))
  }

  ghost predicate HasAdder(s: State, b: Buf) {
    exists t :: t in s.pc && Adding(s.pc[t]) == Some(b)
  }

  /** Before shutdown the cursor is null on an empty list and a list member otherwise. */
  ghost predicate Cursor(s: State) {
    !s.shutdown ==>
      if s.list == [] then s.next.None? else s.next.Some? && s.next.value in s.list
  }

  predicate InClear(p: Pc) {
    || p.ClearLock? || p.ClearFlag? || p.ClearTest? || p.ClearCond? || p.ClearAsleep?
    || p.ClearRelock? || p.ClearDelete? || p.ClearUnlock?
  }

  /** list_for_each_safe stands at the first buffer; tpos is the second one, or all others came too late for it. */
  ghost predicate Walking(s: State, b: Buf, tpos: Option<Buf>) {
    && s.list != [] && s.list[0] == b
    && (tpos.Some? ==> |s.list| > 1 && s.list[1] == tpos.value && s.behind == {})
    && (tpos.None? ==> forall x :: x in s.behind <==> x in s.list && x != b)
  }

  /** Exactly the buffers that came too late are left. */
  ghost predicate OnlyBehind(s: State) {
    forall b :: b in s.list <==> b in s.behind
  }

  ghost predicate SweepOk(s: State, p: Pc) {
    && (AtBuffer(p) ==> Walking(s, p.b, p.tpos))
    && (p.ClearDelete? ==> Available(s, p.b))
    && (p.ClearUnlock? ==> OnlyBehind(s))
  }

  /** Where the one clear call stands. */
  ghost predicate Clearing(s: State) {
    && (forall t :: t in s.pc && InClear(s.pc[t]) ==> s.phase == Called(t))
    && (forall t :: t in s.pc && InClear(s.pc[t]) ==>
          (s.shutdown <==> !s.pc[t].ClearLock? && !s.pc[t].ClearFlag?))
    && (s.phase.NotCalled? ==> !s.shutdown)
    && (s.phase.Called? ==> s.phase.tid in s.pc && InClear(s.pc[s.phase.tid]))
    && (s.phase.Finished? ==> s.shutdown && OnlyBehind(s))
    && (!s.shutdown ==> s.destroyed == {} && s.leaked == {} && s.behind == {})
    && (forall t {:trigger SweepOk(s, s.pc[t])} :: t in s.pc ==> SweepOk(s, s.pc[t]))
  }

  ghost predicate Holds(s: State, t: Tid, b: Buf) {
    t in s.held && b in s.held[t]
  }

  /** A buffer is unavailable exactly when a client holds it, and then only one does. */
  ghost predicate Holding(s: State) {
    && (forall t, b :: Holds(s, t, b) ==> b in s.list && b in s.flags && !s.flags[b].available)
    && (forall t, u, b :: Holds(s, t, b) && Holds(s, u, b) ==> t == u)
    && (forall b {:trigger HasHolder(s, b)} :: b in s.flags && !s.flags[b].available ==> HasHolder(s, b))
  }

  ghost predicate HasHolder(s: State, b: Buf) {
    exists t :: Holds(s, t, b)
  }

  /** A thread under the lock is between the two bit operations on b. */
  ghost predicate Halfway(s: State, b: Buf) {
    s.lock.Some? && s.lock.value in s.pc &&
    (s.pc[s.lock.value] == GetMark(b) || s.pc[s.lock.value] == SetAvail(b))
  }

  /** AVAILABLE and WAITING are never both set; one of them is, except halfway. */
  ghost predicate Bits(s: State) {
    forall b :: b in s.flags ==>
      && !(s.flags[b].available && s.flags[b].waiting)
      && (s.flags[b].available || s.flags[b].waiting || Halfway(s, b))
  }

  /** get_free between reading the cursor and moving it. */
  predicate AtCursor(p: Pc) {
    p.GetTest? || p.GetReserve? || p.GetMark? || p.GetAdvance?
  }

  /** A thread about to use a buffer it holds. */
  predicate Using(p: Pc) {
    p.GetMark? || p.GetAdvance? || p.GetUnlock? || p.SetLock? || p.SetClear? || p.SetAvail?
  }

  /** get_free between dropping the lock and reading the cursor again. */
  predicate Waiting(p: Pc) {
    p.GetCond? || p.GetAsleep? || p.GetRelock? || p.GetRecheck?
  }

  /** What a thread inside get_free or set_free knows. */
  ghost predicate LocalOk(s: State, t: Tid, p: Pc) {
    && (AtCursor(p) ==> s.next == Some(p.b))
    && (AtCursor(p) || p.GetUnlock? || p.GetFault? ==> !s.shutdown)
    && (p.GetReserve? ==> Available(s, p.b))
    && (Using(p) ==> Holds(s, t, p.b))
    && (p.SetAvail? ==> p.b in s.flags && !s.flags[p.b].waiting)
    && (p.GetFault? ==> s.list == [])
    && (Waiting(p) ==> p.b in s.flags && (!s.shutdown ==> p.b in s.list))
  }

  ghost predicate Locals(s: State) {
    forall t {:trigger LocalOk(s, t, s.pc[t])} :: t in s.pc ==> LocalOk(s, t, s.pc[t])
  }

  predicate SleepsOn(p: Pc, b: Buf) {
    (p.GetAsleep? && p.b == b) || (p.ClearAsleep? && p.b == b)
  }

  predicate Waker(p: Pc, b: Buf) {
    p == SetUnlock(b) || p == SetWake(b)
  }

  /** No lost wake-up. */
  ghost predicate Wakeups(s: State) {
    forall t, b {:trigger SleepsOn(s.pc[t], b)} :: t in s.pc && SleepsOn(s.pc[t], b) && Available(s, b) ==>
      HasWaker(s, b)
  }

  ghost predicate HasWaker(s: State, b: Buf) {
    exists u :: u in s.pc && Waker(s.pc[u], b)
  }

  /** Reservations since position k were all made by threads other than t. */
  ghost predicate ByOthers(s: State, t: Tid, k: nat) {
    k <= |s.log| && forall i :: k <= i < |s.log| ==> s.log[i].tid != t
  }

  /** The lock owner has logged a reservation and not moved the cursor yet. */
  ghost predicate Advancing(s: State) {
    s.lock.Some? && s.lock.value in s.pc && (s.pc[s.lock.value].GetMark? || s.pc[s.lock.value].GetAdvance?)
  }

  /** No reservation since the lock was dropped, so the cursor still stands at b. */
  ghost predicate StillAt(s: State, b: Buf, c: Call) {
    |s.log| == c.snap && !s.shutdown ==> s.next == Some(b) && !Advancing(s)
  }

  ghost predicate CallOk(s: State, t: Tid, c: Call) {
    c.start <= c.snap <= |s.log| && c.retries <= c.snap - c.start && ByOthers(s, t, c.start)
  }

  /** get_free before its reservation. */
  predicate Calling(p: Pc) {
    p.GetLock? || p.GetCheck? || p.GetTest? || p.GetReserve? || Waiting(p)
  }

  /** What the history of a get_free call says. */
  ghost predicate HistoryOk(s: State, t: Tid, p: Pc) {
    && (Calling(p) ==> CallOk(s, t, p.c))
    && (p.GetLock? || p.GetCheck? || (p.GetTest? && !p.again) ==> p.c.retries == 0)
    && (Waiting(p) ==> StillAt(s, p.b, p.c))
    && ((p.GetTest? && p.again) || p.GetRelock? || p.GetRecheck? ==>
          |s.log| == p.c.snap && !s.shutdown ==> Available(s, p.b))
  }

  ghost predicate Histories(s: State) {
    forall t {:trigger HistoryOk(s, t, s.pc[t])} :: t in s.pc ==> HistoryOk(s, t, s.pc[t])
  }

  /** The invariant of the shared data, of the threads, and both. */
  ghost predicate Data(s: State) {
    Partition(s) && Cursor(s) && Clearing(s) && Holding(s) && Bits(s)
  }

  ghost predicate Threads(s: State) {
    Locks(s) && Locals(s) && Wakeups(s) && Histories(s)
  }

  ghost predicate Inv(s: State) {
    Data(s) && Threads(s)
  }

  lemma InitInv(threads: set<Tid>)
    ensures Inv(Init(threads))
  {
  }

  // Steps that move one thread and change nothing else but the lock.

  function Move(s: State, t: Tid, p: Pc, lock': Option<Tid>): State {
    s.(lock := lock', pc := s.pc[t := p])
  }

  lemma MoveLocks(s: State, t: Tid, p: Pc, lock': Option<Tid>)
    requires Locks(s) && t in s.pc
    requires lock' == s.lock || (s.lock.None? && lock' == Some(t)) || (Critical(s.pc[t]) && lock'.None?)
    requires Critical(p) ==> lock' == Some(t)
    requires lock' == Some(t) && !Critical(p) ==> s.shutdown
    ensures Locks(Move(s, t, p, lock'))
  {
  }

  lemma MovePartition(s: State, t: Tid, p: Pc, lock': Option<Tid>)
    requires Partition(s) && t in s.pc && Adding(p) == Adding(s.pc[t])
    ensures Partition(Move(s, t, p, lock'))
  {
    PartitionFrame(s, Move(s, t, p, lock'));
  }

  lemma MoveClearing(s: State, t: Tid, p: Pc, lock': Option<Tid>)
    requires Clearing(s) && t in s.pc
    requires InClear(p) <==> InClear(s.pc[t])
    requires InClear(p) ==> (s.shutdown <==> !p.ClearLock? && !p.ClearFlag?)
    requires SweepOk(s, p)
    ensures Clearing(Move(s, t, p, lock'))
  {
    var s' := Move(s, t, p, lock');
    forall u | u in s'.pc ensures SweepOk(s', s'.pc[u]) {
      assert SweepOk(s, s'.pc[u]);
    }
  }

  lemma MoveBits(s: State, t: Tid, p: Pc, lock': Option<Tid>)
    requires Bits(s) && t in s.pc && !s.pc[t].GetMark? && !s.pc[t].SetAvail?
    requires lock' == s.lock || s.lock.None? || s.lock == Some(t)
    ensures Bits(Move(s, t, p, lock'))
  {
  }

  lemma MoveLocals(s: State, t: Tid, p: Pc, lock': Option<Tid>)
    requires Locals(s) && t in s.pc && LocalOk(s, t, p)
    ensures Locals(Move(s, t, p, lock'))
  {
    var s' := Move(s, t, p, lock');
    forall u | u in s'.pc ensures LocalOk(s', u, s'.pc[u]) {
      assert LocalOk(s, u, s'.pc[u]);
    }
  }

  lemma MoveWakeups(s: State, t: Tid, p: Pc, lock': Option<Tid>)
    requires Wakeups(s) && t in s.pc
    requires Asleep(p) ==> !Available(s, p.b)
    requires s.pc[t].SetUnlock? ==> p == SetWake(s.pc[t].b)
    requires !s.pc[t].SetWake?
    ensures Wakeups(Move(s, t, p, lock'))
  {
    WakeupsFrame(s, Move(s, t, p, lock'), t);
  }

  lemma MoveHistories(s: State, t: Tid, p: Pc, lock': Option<Tid>)
    requires Histories(s) && t in s.pc && HistoryOk(s, t, p)
    requires lock' == s.lock || lock'.None? || lock' == Some(t)
    requires !p.GetMark? && !p.GetAdvance?
    ensures Histories(Move(s, t, p, lock'))
  {
    var s' := Move(s, t, p, lock');
    forall u | u in s'.pc ensures HistoryOk(s', u, s'.pc[u]) {
      assert HistoryOk(s, u, s'.pc[u]);
    }
  }

  lemma MoveData(s: State, s': State, t: Tid, p: Pc, lock': Option<Tid>)
    requires Locks(s) && Data(s) && t in s.pc && s' == Move(s, t, p, lock')
    requires lock' == s.lock || s.lock.None? || Critical(s.pc[t])
    requires Adding(p) == Adding(s.pc[t])
    requires InClear(p) <==> InClear(s.pc[t])
    requires InClear(p) ==> (s.shutdown <==> !p.ClearLock? && !p.ClearFlag?)
    requires SweepOk(s, p)
    requires !s.pc[t].GetMark? && !s.pc[t].SetAvail?
    ensures Data(s')
  {
    MovePartition(s, t, p, lock');
    MoveClearing(s, t, p, lock');
    HoldingFrame(s, s');
    MoveBits(s, t, p, lock');
  }

  lemma MoveThreads(s: State, s': State, t: Tid, p: Pc, lock': Option<Tid>)
    requires Threads(s) && t in s.pc && s' == Move(s, t, p, lock')
    requires lock' == s.lock || (s.lock.None? && lock' == Some(t)) || (Critical(s.pc[t]) && lock'.None?)
    requires Critical(p) ==> lock' == Some(t)
    requires lock' == Some(t) && !Critical(p) ==> s.shutdown
    requires LocalOk(s, t, p) && HistoryOk(s, t, p)
    requires !p.GetMark? && !p.GetAdvance? && !s.pc[t].SetWake?
    requires Asleep(p) ==> !Available(s, p.b)
    requires s.pc[t].SetUnlock? ==> p == SetWake(s.pc[t].b)
    ensures Threads(s')
  {
    MoveLocks(s, t, p, lock');
    MoveLocals(s, t, p, lock');
    MoveWakeups(s, t, p, lock');
    MoveHistories(s, t, p, lock');
  }

  /** Thread t may go to p, and take or drop the lock, without harm. */
  ghost predicate MayMove(s: State, t: Tid, p: Pc, lock': Option<Tid>) {
    && t in s.pc
    && (lock' == s.lock || (s.lock.None? && lock' == Some(t)) || (Critical(s.pc[t]) && lock'.None?))
    && (Critical(p) ==> lock' == Some(t))
    && (lock' == Some(t) && !Critical(p) ==> s.shutdown)
    && Adding(p) == Adding(s.pc[t])
    && (InClear(p) <==> InClear(s.pc[t]))
    && (InClear(p) ==> (s.shutdown <==> !p.ClearLock? && !p.ClearFlag?))
    && SweepOk(s, p) && LocalOk(s, t, p) && HistoryOk(s, t, p)
    && !p.GetMark? && !p.GetAdvance?
    && !s.pc[t].GetMark? && !s.pc[t].SetAvail? && !s.pc[t].SetWake?
    && (Asleep(p) ==> !Available(s, p.b))
    && (s.pc[t].SetUnlock? ==> p == SetWake(s.pc[t].b))
  }

  /** A step that only moves thread t, and takes or drops the lock, keeps the invariant if t's new facts hold. */
  lemma MoveKeeps(s: State, s': State, t: Tid, p: Pc, lock': Option<Tid>)
    requires Inv(s) && MayMove(s, t, p, lock') && s' == Move(s, t, p, lock')
    ensures Inv(s')
  {
    MoveData(s, s', t, p, lock');
    MoveThreads(s, s', t, p, lock');
  }

  /** What the invariant says about one thread. */
  ghost predicate Knows(s: State, t: Tid) {
    && t in s.pc && LocalOk(s, t, s.pc[t]) && HistoryOk(s, t, s.pc[t]) && SweepOk(s, s.pc[t])
    && (Critical(s.pc[t]) ==> s.lock == Some(t))
    && (s.lock == Some(t) && !Critical(s.pc[t]) ==> s.shutdown)
    && (InClear(s.pc[t]) ==> (s.shutdown <==> !s.pc[t].ClearLock? && !s.pc[t].ClearFlag?))
    && Cursor(s) && (AtCursor(s.pc[t]) ==> s.pc[t].b in s.list && s.pc[t].b in s.flags)
  }

  lemma Knowledge(s: State, t: Tid)
    requires Inv(s) && t in s.pc
    ensures Knows(s, t)
  {
    assert LocalOk(s, t, s.pc[t]) && HistoryOk(s, t, s.pc[t]) && SweepOk(s, s.pc[t]);
  }

  // What a step of the lock owner leaves intact, predicate by predicate.

  /** Only thread t moved, and it owns the lock before and after. */
  ghost predicate OwnerStep(s: State, s': State, t: Tid) {
    && t in s.pc && Critical(s.pc[t]) && s'.lock == s.lock
    && s'.pc.Keys == s.pc.Keys && s'.held.Keys == s.held.Keys && Critical(s'.pc[t])
    && (forall u :: u in s.pc && u != t ==> s'.pc[u] == s.pc[u])
    && (forall u :: u in s.held && u != t ==> s'.held[u] == s.held[u])
    && s.flags.Keys <= s'.flags.Keys
    && (s.shutdown ==> s'.shutdown)
  }

  lemma OwnerLocks(s: State, s': State, t: Tid)
    requires Locks(s) && OwnerStep(s, s', t)
    ensures Locks(s')
  {
  }

  lemma PartitionFrame(s: State, s': State)
    requires Partition(s)
    requires s'.list == s.list && s'.flags.Keys == s.flags.Keys && s'.pending == s.pending
    requires s'.destroyed == s.destroyed && s'.leaked == s.leaked
    requires s'.pc.Keys == s.pc.Keys
    requires forall u :: u in s.pc ==> Adding(s'.pc[u]) == Adding(s.pc[u])
    ensures Partition(s')
  {
    forall b | b in s'.pending ensures HasAdder(s', b) {
      assert HasAdder(s, b);
      var u :| u in s.pc && Adding(s.pc[u]) == Some(b);
      assert u in s'.pc && Adding(s'.pc[u]) == Some(b);
    }
  }

  lemma HoldingFrame(s: State, s': State)
    requires Holding(s)
    requires s'.held == s.held && s'.flags.Keys == s.flags.Keys
    requires forall b :: b in s.flags ==> s'.flags[b].available == s.flags[b].available
    requires forall b :: b in s.list ==> b in s'.list
    ensures Holding(s')
  {
    assert forall u, b :: Holds(s', u, b) <==> Holds(s, u, b);
    forall b | b in s'.flags && !s'.flags[b].available ensures HasHolder(s', b) {
      assert HasHolder(s, b);
    }
  }

  lemma OwnerLocals(s: State, s': State, t: Tid)
    requires Locks(s) && Locals(s) && OwnerStep(s, s', t)
    requires s'.shutdown || forall b :: b in s.list ==> b in s'.list
    requires LocalOk(s', t, s'.pc[t])
    ensures Locals(s')
  {
    forall u | u in s'.pc ensures LocalOk(s', u, s'.pc[u]) {
      assert LocalOk(s, u, s.pc[u]);
    }
  }

  /** Sleepers are still covered if no buffer became available behind their back. */
  lemma WakeupsFrame(s: State, s': State, t: Tid)
    requires Wakeups(s) && t in s.pc && s'.pc.Keys == s.pc.Keys
    requires forall u :: u in s.pc && u != t ==> s'.pc[u] == s.pc[u]
    requires forall b :: Waker(s.pc[t], b) ==> Waker(s'.pc[t], b)
    requires forall b :: SleepsOn(s'.pc[t], b) ==> !Available(s', b)
    requires forall b :: Available(s', b) && !Available(s, b) ==>
               Waker(s'.pc[t], b) || forall u :: u in s.pc ==> !SleepsOn(s.pc[u], b)
    ensures Wakeups(s')
  {
    forall v, b | v in s'.pc && SleepsOn(s'.pc[v], b) && Available(s', b) ensures HasWaker(s', b)
    {
      assert v != t && SleepsOn(s.pc[v], b);
      if Available(s, b) {
        assert HasWaker(s, b);
        var u :| u in s.pc && Waker(s.pc[u], b);
        assert u in s'.pc && Waker(s'.pc[u], b);
      } else {
        assert Waker(s'.pc[t], b);
      }
    }
  }

  lemma OwnerHistories(s: State, s': State, t: Tid)
    requires Locks(s) && Locals(s) && Histories(s) && OwnerStep(s, s', t)
    requires s'.log == s.log || (|s'.log| == |s.log| + 1 && s'.log[..|s.log|] == s.log && s'.log[|s.log|].tid == t)
    requires s'.log != s.log || s'.shutdown || s'.next == s.next || Advancing(s) || s.list == []
    requires s'.log != s.log || forall b :: Available(s, b) ==> Available(s', b)
    requires s'.log != s.log || s'.shutdown || (Advancing(s') ==> Advancing(s))
    requires HistoryOk(s', t, s'.pc[t])
    ensures Histories(s')
  {
    forall u | u in s'.pc ensures HistoryOk(s', u, s'.pc[u]) {
      if u != t {
        assert HistoryOk(s, u, s.pc[u]) && LocalOk(s, u, s.pc[u]) && !Critical(s.pc[u]);
        OtherHistory(s, s', t, u);
      }
    }
  }

  lemma OtherHistory(s: State, s': State, t: Tid, u: Tid)
    requires u in s.pc && u != t && !Critical(s.pc[u])
    requires HistoryOk(s, u, s.pc[u]) && LocalOk(s, u, s.pc[u])
    requires s.shutdown ==> s'.shutdown
    requires s'.log == s.log || (|s'.log| == |s.log| + 1 && s'.log[..|s.log|] == s.log && s'.log[|s.log|].tid == t)
    requires s'.log != s.log || s'.shutdown || s'.next == s.next || Advancing(s) || s.list == []
    requires s'.log != s.log || forall b :: Available(s, b) ==> Available(s', b)
    requires s'.log != s.log || s'.shutdown || (Advancing(s') ==> Advancing(s))
    ensures HistoryOk(s', u, s.pc[u])
  {
    assert forall i :: 0 <= i < |s.log| ==> s'.log[i] == s'.log[..|s.log|][i];
  }

  /** A step of an owner that is not clearing and leaves the list alone. */
  lemma OwnerClearing(s: State, s': State, t: Tid)
    requires Locks(s) && Clearing(s) && OwnerStep(s, s', t)
    requires !InClear(s.pc[t]) && !InClear(s'.pc[t])
    requires s'.phase == s.phase && s'.shutdown == s.shutdown && s'.list == s.list
    requires s'.destroyed == s.destroyed && s'.leaked == s.leaked && s'.behind == s.behind
    ensures Clearing(s')
  {
    forall u | u in s'.pc ensures SweepOk(s', s'.pc[u]) {
      assert SweepOk(s, s.pc[u]);
    }
  }

  /** A step of the lock owner that leaves list, cursor and shutdown alone. */
  ghost predicate BitStep(s: State, s': State, t: Tid) {
    && OwnerStep(s, s', t)
    && Adding(s.pc[t]).None? && Adding(s'.pc[t]).None? && !InClear(s.pc[t]) && !InClear(s'.pc[t])
    && s'.list == s.list && s'.next == s.next && s'.flags.Keys == s.flags.Keys && s'.pending == s.pending
    && s'.destroyed == s.destroyed && s'.leaked == s.leaked && s'.behind == s.behind
    && s'.phase == s.phase && s'.shutdown == s.shutdown
  }

  lemma OwnerFrame(s: State, s': State, t: Tid)
    requires Locks(s) && Partition(s) && Cursor(s) && Clearing(s) && BitStep(s, s', t)
    ensures Partition(s') && Cursor(s') && Clearing(s')
  {
    PartitionFrame(s, s');
    OwnerClearing(s, s', t);
  }

  /** A step on the bits of b by the owner, which works on b only. */
  lemma OwnerBits(s: State, s': State, t: Tid, b: Buf)
    requires Locks(s) && Bits(s) && OwnerStep(s, s', t)
    requires forall x :: x in s'.flags && x != b ==> x in s.flags && s'.flags[x] == s.flags[x]
    requires s.pc[t].GetMark? || s.pc[t].SetAvail? ==> s.pc[t].b == b
    requires b in s'.flags ==>
               && !(s'.flags[b].available && s'.flags[b].waiting)
               && (s'.flags[b].available || s'.flags[b].waiting || s'.pc[t] == GetMark(b) || s'.pc[t] == SetAvail(b))
    ensures Bits(s')
  {
    forall x | x in s'.flags && x != b ensures s'.flags[x].available || s'.flags[x].waiting {
      assert !Halfway(s, x);
    }
  }

  /** A data step of the lock owner that the other threads can bear. */
  ghost predicate OwnerMay(s: State, s': State, t: Tid) {
    && OwnerStep(s, s', t) && LocalOk(s', t, s'.pc[t]) && HistoryOk(s', t, s'.pc[t])
    && !Asleep(s'.pc[t]) && !s.pc[t].SetUnlock?
    && (s'.shutdown || forall b :: b in s.list ==> b in s'.list)
    && (forall b :: Available(s', b) && !Available(s, b) ==> Waker(s'.pc[t], b))
    && (s'.log == s.log || (|s'.log| == |s.log| + 1 && s'.log[..|s.log|] == s.log && s'.log[|s.log|].tid == t))
    && (s'.log != s.log || s'.shutdown || s'.next == s.next || Advancing(s) || s.list == [])
    && (s'.log != s.log || forall b :: Available(s, b) ==> Available(s', b))
    && (s'.log != s.log || s'.shutdown || (Advancing(s') ==> Advancing(s)))
  }

  /** It keeps what they rely on. */
  lemma OwnerThreads(s: State, s': State, t: Tid)
    requires Threads(s) && OwnerMay(s, s', t)
    ensures Threads(s')
  {
    OwnerLocks(s, s', t);
    OwnerLocals(s, s', t);
    WakeupsFrame(s, s', t);
    OwnerHistories(s, s', t);
  }
}
