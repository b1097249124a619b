/** Every event of the buffer list protocol keeps the invariant, so every reachable state satisfies it. */
module ProtocolSteps {
  import opened Common
  import opened Circular
  import opened Protocol
  import opened ProtocolInvariant

  // Append: the buffer enters the list.

  lemma LinkShape(s: State, t: Tid, b: Buf)
    requires t in s.pc && s.pc[t] == AppendLink(b)
    ensures OwnerStep(s, Link(s, t, b), t)
  {
  }

  lemma LinkPartition(s: State, t: Tid, b: Buf)
    requires Partition(s) && t in s.pc && s.pc[t] == AppendLink(b)
    ensures Partition(Link(s, t, b))
  {
    var s' := Link(s, t, b);
    assert Adding(s.pc[t]) == Some(b);
    forall u | u in s'.pc && Adding(s'.pc[u]).Some? ensures Adding(s'.pc[u]).value in s'.pending {
      assert Adding(s.pc[u]) != Adding(s.pc[t]);
    }
    forall x | x in s'.pending ensures HasAdder(s', x) {
      assert HasAdder(s, x);
      var u :| u in s.pc && Adding(s.pc[u]) == Some(x);
      assert u in s'.pc && Adding(s'.pc[u]) == Some(x);
    }
  }

  /** A buffer linked behind the last one clear will visit is left behind; one linked before that is not. */
  lemma LinkClearing(s: State, s': State, t: Tid, b: Buf)
    requires Locks(s) && Clearing(s) && OwnerStep(s, s', t) && s.pc[t] == AppendLink(b) && s'.pc[t] == AppendUnlock
    requires b !in s.list && s'.list == s.list + [b] && s'.behind == if PastEnd(s) then s.behind + {b} else s.behind
    requires s'.phase == s.phase && s'.shutdown == s.shutdown && s'.destroyed == s.destroyed && s'.leaked == s.leaked
    ensures Clearing(s')
  {
    forall u | u in s'.pc ensures SweepOk(s', s'.pc[u]) {
      assert SweepOk(s, s.pc[u]);
      assert InClear(s.pc[u]) ==> s.phase == Called(u) && !Critical(s.pc[u]);
      LinkSweep(s, s', u, b);
    }
    assert s.phase.Finished? ==> PastEnd(s);
  }

  lemma LinkSweep(s: State, s': State, u: Tid, b: Buf)
    requires u in s.pc && SweepOk(s, s.pc[u]) && (InClear(s.pc[u]) ==> s.phase == Called(u) && !Critical(s.pc[u]))
    requires b !in s.list && s'.list == s.list + [b] && s'.behind == if PastEnd(s) then s.behind + {b} else s.behind
    ensures SweepOk(s', s.pc[u])
  {
  }

  lemma LinkData(s: State, s': State, t: Tid, b: Buf)
    requires Locks(s) && Data(s) && t in s.pc && s.pc[t] == AppendLink(b)
    requires s' == Link(s, t, b)
    ensures Data(s')
  {
    LinkShape(s, t, b);
    LinkPartition(s, t, b);
    if s.list == [] { assert s'.list == [b]; }
    LinkClearing(s, s', t, b);
    HoldingFrame(s, s');
    OwnerBits(s, s', t, b);
  }

  lemma LinkThreads(s: State, s': State, t: Tid, b: Buf)
    requires Threads(s) && t in s.pc && s.pc[t] == AppendLink(b)
    requires s' == Link(s, t, b)
    ensures Threads(s')
  {
    LinkShape(s, t, b);
    OwnerThreads(s, s', t);
  }

  // get_free: the availability bit, the waiting bit and the cursor.

  lemma ReserveShape(s: State, t: Tid, b: Buf, c: Call)
    requires t in s.pc && t in s.held && b in s.flags && s.pc[t] == GetReserve(b, c)
    ensures BitStep(s, Reserve(s, t, b), t)
  {
  }

  lemma ReserveHolding(s: State, t: Tid, b: Buf)
    requires Holding(s) && t in s.held && Available(s, b) && b in s.list
    ensures Holding(Reserve(s, t, b))
  {
    var s' := Reserve(s, t, b);
    assert forall u, x :: Holds(s', u, x) <==> Holds(s, u, x) || (u == t && x == b);
    forall x | x in s'.flags && !s'.flags[x].available ensures HasHolder(s', x) {
      if x == b {
        assert Holds(s', t, b);
      } else {
        assert HasHolder(s, x);
        var u :| Holds(s, u, x);
        assert Holds(s', u, x);
      }
    }
  }

  lemma ReserveBits(s: State, t: Tid, b: Buf, c: Call)
    requires Locks(s) && Bits(s) && t in s.pc && t in s.held && s.pc[t] == GetReserve(b, c) && Available(s, b)
    ensures Bits(Reserve(s, t, b))
  {
    ReserveShape(s, t, b, c);
    OwnerBits(s, Reserve(s, t, b), t, b);
  }

  lemma ReserveData(s: State, s': State, t: Tid, b: Buf, c: Call)
    requires Locks(s) && Data(s) && t in s.pc && s.pc[t] == GetReserve(b, c) && LocalOk(s, t, s.pc[t])
    requires b in s.flags && t in s.held && s' == Reserve(s, t, b)
    ensures Data(s')
  {
    ReserveShape(s, t, b, c);
    OwnerFrame(s, s', t);
    ReserveHolding(s, t, b);
    ReserveBits(s, t, b, c);
  }

  lemma ReserveThreads(s: State, s': State, t: Tid, b: Buf, c: Call)
    requires Threads(s) && t in s.pc && s.pc[t] == GetReserve(b, c)
    requires b in s.flags && t in s.held && s' == Reserve(s, t, b)
    ensures Threads(s')
  {
    assert LocalOk(s, t, s.pc[t]);
    ReserveShape(s, t, b, c);
    OwnerThreads(s, s', t);
  }

  lemma MarkShape(s: State, t: Tid, b: Buf)
    requires t in s.pc && b in s.flags && s.pc[t] == GetMark(b)
    ensures BitStep(s, Mark(s, t, b), t)
  {
  }

  lemma MarkData(s: State, s': State, t: Tid, b: Buf)
    requires Locks(s) && Data(s) && t in s.pc && s.pc[t] == GetMark(b) && Holds(s, t, b)
    requires b in s.flags && s' == Mark(s, t, b)
    ensures Data(s')
  {
    MarkShape(s, t, b);
    OwnerFrame(s, s', t);
    MarkBits(s, s', t, b);
  }

  lemma MarkBits(s: State, s': State, t: Tid, b: Buf)
    requires Locks(s) && Holding(s) && Bits(s) && Holds(s, t, b) && t in s.pc && s.pc[t] == GetMark(b)
    requires b in s.flags && s' == Mark(s, t, b)
    ensures Holding(s') && Bits(s')
  {
    MarkShape(s, t, b);
    HoldingFrame(s, s');
    OwnerBits(s, s', t, b);
  }

  lemma MarkThreads(s: State, s': State, t: Tid, b: Buf)
    requires Threads(s) && t in s.pc && s.pc[t] == GetMark(b) && b in s.flags
    requires b in s.flags && s' == Mark(s, t, b)
    ensures Threads(s')
  {
    assert LocalOk(s, t, s.pc[t]);
    MarkShape(s, t, b);
    OwnerThreads(s, s', t);
  }

  lemma AdvanceShape(s: State, t: Tid, b: Buf)
    requires t in s.pc && s.pc[t] == GetAdvance(b)
    ensures OwnerStep(s, Advance(s, t, b), t)
  {
  }

  lemma AdvanceData(s: State, s': State, t: Tid, b: Buf)
    requires Locks(s) && Data(s) && t in s.pc && s.pc[t] == GetAdvance(b) && LocalOk(s, t, s.pc[t])
    requires s' == Advance(s, t, b)
    ensures Data(s')
  {
    assert Holds(s, t, b);
    AdvanceShape(s, t, b);
    PartitionFrame(s, s');
    OwnerClearing(s, s', t);
    HoldingFrame(s, s');
    OwnerBits(s, s', t, b);
  }

  lemma AdvanceMay(s: State, s': State, t: Tid, b: Buf)
    requires t in s.pc && s.lock == Some(t) && s.pc[t] == GetAdvance(b) && LocalOk(s, t, s.pc[t]) && s' == Advance(s, t, b)
    ensures OwnerMay(s, s', t)
  {
    AdvanceShape(s, t, b);
  }

  lemma AdvanceThreads(s: State, s': State, t: Tid, b: Buf)
    requires Threads(s) && t in s.pc && s.pc[t] == GetAdvance(b)
    requires s' == Advance(s, t, b)
    ensures Threads(s')
  {
    assert LocalOk(s, t, s.pc[t]);
    AdvanceMay(s, s', t, b);
    OwnerThreads(s, s', t);
  }

  // set_free: the two bits in the opposite order.

  lemma UnmarkShape(s: State, t: Tid, b: Buf)
    requires t in s.pc && b in s.flags && s.pc[t] == SetClear(b)
    ensures BitStep(s, Unmark(s, t, b), t)
  {
  }

  lemma UnmarkData(s: State, s': State, t: Tid, b: Buf)
    requires Locks(s) && Data(s) && t in s.pc && s.pc[t] == SetClear(b) && Holds(s, t, b)
    requires b in s.flags && s' == Unmark(s, t, b)
    ensures Data(s')
  {
    UnmarkShape(s, t, b);
    OwnerFrame(s, s', t);
    UnmarkBits(s, s', t, b);
  }

  lemma UnmarkBits(s: State, s': State, t: Tid, b: Buf)
    requires Locks(s) && Holding(s) && Bits(s) && Holds(s, t, b) && t in s.pc && s.pc[t] == SetClear(b)
    requires b in s.flags && s' == Unmark(s, t, b)
    ensures Holding(s') && Bits(s')
  {
    UnmarkShape(s, t, b);
    HoldingFrame(s, s');
    OwnerBits(s, s', t, b);
  }

  lemma UnmarkThreads(s: State, s': State, t: Tid, b: Buf)
    requires Threads(s) && t in s.pc && s.pc[t] == SetClear(b) && b in s.flags
    requires b in s.flags && s' == Unmark(s, t, b)
    ensures Threads(s')
  {
    assert LocalOk(s, t, s.pc[t]);
    UnmarkShape(s, t, b);
    OwnerThreads(s, s', t);
  }

  lemma AvailShape(s: State, t: Tid, b: Buf)
    requires t in s.pc && t in s.held && b in s.flags && s.pc[t] == SetAvail(b)
    ensures BitStep(s, MakeAvailable(s, t, b), t)
  {
  }

  lemma AvailHolding(s: State, t: Tid, b: Buf)
    requires Holding(s) && Holds(s, t, b) && b in s.flags
    ensures Holding(MakeAvailable(s, t, b))
  {
    var s' := MakeAvailable(s, t, b);
    assert forall u, x :: Holds(s', u, x) <==> Holds(s, u, x) && x != b;
    forall x | x in s'.flags && !s'.flags[x].available ensures HasHolder(s', x) {
      assert HasHolder(s, x);
      var u :| Holds(s, u, x);
      assert Holds(s', u, x);
    }
  }

  lemma AvailBits(s: State, t: Tid, b: Buf)
    requires Locks(s) && Bits(s) && t in s.pc && t in s.held && s.pc[t] == SetAvail(b) && b in s.flags && !s.flags[b].waiting
    ensures Bits(MakeAvailable(s, t, b))
  {
    AvailShape(s, t, b);
    OwnerBits(s, MakeAvailable(s, t, b), t, b);
  }

  lemma AvailData(s: State, s': State, t: Tid, b: Buf)
    requires Locks(s) && Data(s) && t in s.pc && s.pc[t] == SetAvail(b)
    requires Holds(s, t, b) && b in s.flags && !s.flags[b].waiting
    requires b in s.flags && t in s.held && s' == MakeAvailable(s, t, b)
    ensures Data(s')
  {
    AvailShape(s, t, b);
    OwnerFrame(s, s', t);
    AvailHolding(s, t, b);
    AvailBits(s, t, b);
  }

  lemma AvailThreads(s: State, s': State, t: Tid, b: Buf)
    requires Threads(s) && t in s.pc && s.pc[t] == SetAvail(b)
    requires b in s.flags && t in s.held && s' == MakeAvailable(s, t, b)
    ensures Threads(s')
  {
    assert LocalOk(s, t, s.pc[t]);
    AvailShape(s, t, b);
    OwnerThreads(s, s', t);
  }

  lemma BitsFrame(s: State, s': State, t: Tid)
    requires Locks(s) && Bits(s) && OwnerStep(s, s', t) && s'.flags == s.flags
    requires !s.pc[t].GetMark? && !s.pc[t].SetAvail?
    ensures Bits(s')
  {
  }

  /** The wake-up only sends sleepers back to their condition. */
  lemma WakeKeeps(s: State, t: Tid, b: Buf)
    requires Inv(s) && t in s.pc && s.pc[t] == SetWake(b)
    ensures Inv(Goto(WakeAll(s), t, Idle(Void)))
  {
    var s' := Goto(WakeAll(s), t, Idle(Void));
    WakeData(s, s', t);
    WakeThreads(s, s', t);
  }

  /** Thread t went idle and every sleeper was woken. */
  ghost predicate WakeStep(s: State, s': State, t: Tid) {
    && t in s.pc && s.pc[t].SetWake? && s'.pc.Keys == s.pc.Keys && s' == s.(pc := s'.pc)
    && s'.pc[t] == Idle(Void)
    && forall u :: u in s.pc && u != t ==> s'.pc[u] == Woken(s.pc[u])
  }

  /** The same place in clear, or none in both. */
  predicate SameStation(p: Pc, p': Pc) {
    InClear(p') == InClear(p) && p'.ClearLock? == p.ClearLock? && p'.ClearFlag? == p.ClearFlag?
  }

  lemma WakeClearing(s: State, s': State, t: Tid)
    requires Clearing(s) && WakeStep(s, s', t)
    ensures Clearing(s')
  {
    forall u | u in s'.pc ensures SweepOk(s', s'.pc[u]) && SameStation(s.pc[u], s'.pc[u]) {
      assert SweepOk(s, s.pc[u]);
    }
  }

  lemma WakeBits(s: State, s': State, t: Tid)
    requires Bits(s) && WakeStep(s, s', t)
    ensures Bits(s')
  {
    forall b | b in s'.flags ensures Halfway(s, b) ==> Halfway(s', b) {
    }
  }

  lemma WakeData(s: State, s': State, t: Tid)
    requires Data(s) && WakeStep(s, s', t)
    ensures Data(s')
  {
    PartitionFrame(s, s');
    HoldingFrame(s, s');
    WakeClearing(s, s', t);
    WakeBits(s, s', t);
  }

  lemma WakeLocks(s: State, s': State, t: Tid)
    requires Locks(s) && WakeStep(s, s', t)
    ensures Locks(s') && Wakeups(s')
  {
    forall u | u in s.pc ensures Critical(s'.pc[u]) == Critical(s.pc[u]) && !Asleep(s'.pc[u]) {
      WokenStays(s.pc[u]);
    }
  }

  lemma WokenStays(p: Pc)
    ensures Critical(Woken(p)) == Critical(p) && !Asleep(Woken(p))
  {
  }

  lemma WakeLocals(s: State, s': State, t: Tid)
    requires Locals(s) && WakeStep(s, s', t)
    ensures Locals(s')
  {
    forall u | u in s'.pc ensures LocalOk(s', u, s'.pc[u]) {
      assert LocalOk(s, u, s.pc[u]);
    }
  }

  lemma WakeHistories(s: State, s': State, t: Tid)
    requires Histories(s) && WakeStep(s, s', t)
    ensures Histories(s')
  {
    forall u | u in s'.pc ensures HistoryOk(s', u, s'.pc[u]) {
      assert HistoryOk(s, u, s.pc[u]);
    }
  }

  lemma WakeThreads(s: State, s': State, t: Tid)
    requires Threads(s) && WakeStep(s, s', t)
    ensures Threads(s')
  {
    WakeLocks(s, s', t);
    WakeLocals(s, s', t);
    WakeHistories(s, s', t);
  }

  // clear: the flag, the deletions and the end.

  lemma VisitsFirst(list: seq<Buf>)
    requires list != [] && Distinct(list)
    ensures Visit(list, Some(list[0])) == ClearTest(list[0], if |list| == 1 then None else Some(list[1]), Positive)
  {
    IndexUnique(list, 0);
  }

  lemma ShutClearing(s: State, t: Tid)
    requires Locks(s) && Clearing(s) && Distinct(s.list) && t in s.pc && s.pc[t].ClearFlag?
    ensures Clearing(Shut(s, t))
  {
    var s' := Shut(s, t);
    if s.list != [] { VisitsFirst(s.list); }
    forall u | u in s'.pc ensures SweepOk(s', s'.pc[u]) {
      assert SweepOk(s, s.pc[u]);
    }
  }

  lemma ShutShape(s: State, s': State, t: Tid)
    requires t in s.pc && s.pc[t].ClearFlag? && s' == Shut(s, t)
    ensures OwnerStep(s, s', t) && s' == s.(shutdown := true, pc := s'.pc)
    ensures forall u :: u in s.pc ==> Adding(s'.pc[u]) == Adding(s.pc[u])
  {
  }

  lemma ShutData(s: State, s': State, t: Tid)
    requires Locks(s) && Data(s) && t in s.pc && s.pc[t].ClearFlag? && s' == Shut(s, t)
    ensures Data(s') && OwnerStep(s, s', t)
  {
    ShutShape(s, s', t);
    PartitionFrame(s, s');
    HoldingFrame(s, s');
    BitsFrame(s, s', t);
    ShutClearing(s, t);
  }

  lemma ShutMay(s: State, s': State, t: Tid)
    requires t in s.pc && s.pc[t].ClearFlag? && s' == Shut(s, t) && OwnerStep(s, s', t)
    ensures OwnerMay(s, s', t)
  {
  }

  lemma ShutKeeps(s: State, s': State, t: Tid)
    requires Inv(s) && t in s.pc && s.pc[t].ClearFlag? && s' == Shut(s, t)
    ensures Inv(s')
  {
    ShutData(s, s', t);
    ShutMay(s, s', t);
    OwnerThreads(s, s', t);
  }

  lemma DeleteShape(s: State, s': State, t: Tid, b: Buf, tpos: Option<Buf>, code: Code)
    requires t in s.pc && s.pc[t] == ClearDelete(b, tpos, code) && s.list != [] && s.list[0] == b
    requires s' == Delete(s, t, b, tpos, code)
    ensures OwnerStep(s, s', t) && s'.list == s.list[1..] && s'.pc[t] == Visit(s'.list, tpos)
    ensures s' == s.(list := s'.list, destroyed := s'.destroyed, leaked := s'.leaked, pc := s'.pc)
    ensures (s'.destroyed == s.destroyed + {b} && s'.leaked == s.leaked)
            || (s'.destroyed == s.destroyed && s'.leaked == s.leaked + {b})
    ensures forall u :: u in s.pc ==> Adding(s'.pc[u]) == Adding(s.pc[u])
  {
    WithoutFirst(s.list);
  }

  lemma DeletePartition(s: State, s': State, b: Buf)
    requires Partition(s) && s.list != [] && s.list[0] == b && s'.list == s.list[1..]
    requires s'.flags == s.flags && s'.pending == s.pending && s'.pc.Keys == s.pc.Keys
    requires (s'.destroyed == s.destroyed + {b} && s'.leaked == s.leaked)
             || (s'.destroyed == s.destroyed && s'.leaked == s.leaked + {b})
    requires forall u :: u in s.pc ==> Adding(s'.pc[u]) == Adding(s.pc[u])
    ensures Partition(s')
  {
    assert forall x :: x in s.list <==> x == b || x in s'.list by {
      assert s.list == [b] + s'.list;
    }
    assert b !in s'.list;
    forall x | x in s'.pending ensures HasAdder(s', x) {
      assert HasAdder(s, x);
      var u :| u in s.pc && Adding(s.pc[u]) == Some(x);
      assert u in s'.pc && Adding(s'.pc[u]) == Some(x);
    }
  }

  /** What list_for_each_safe finds after the deletion. */
  lemma DeleteVisits(s: State, s': State, b: Buf, tpos: Option<Buf>)
    requires Walking(s, b, tpos) && Distinct(s.list) && s'.list == s.list[1..] && s'.behind == s.behind
    ensures var p := Visit(s'.list, tpos); SweepOk(s', p) && InClear(p) && !p.ClearLock? && !p.ClearFlag?
  {
    if tpos.Some? {
      VisitsFirst(s'.list);
    }
  }

  lemma DeleteClearing(s: State, s': State, t: Tid, b: Buf, tpos: Option<Buf>, code: Code)
    requires Locks(s) && Clearing(s) && Distinct(s.list) && t in s.pc && s.pc[t] == ClearDelete(b, tpos, code)
    requires OwnerStep(s, s', t) && s.list != [] && s'.list == s.list[1..] && s'.behind == s.behind
    requires s'.shutdown == s.shutdown && s'.phase == s.phase && s'.pc[t] == Visit(s'.list, tpos)
    ensures Clearing(s')
  {
    assert SweepOk(s, s.pc[t]);
    DeleteVisits(s, s', b, tpos);
    assert s.shutdown && s.phase == Called(t);
    forall u | u in s'.pc ensures SweepOk(s', s'.pc[u]) {
      assert SweepOk(s, s.pc[u]);
      assert u != t ==> !InClear(s.pc[u]);
    }
  }

  lemma DeleteHolding(s: State, s': State, b: Buf)
    requires Holding(s) && Available(s, b) && s.list != [] && s.list[0] == b && s'.list == s.list[1..]
    requires s'.held == s.held && s'.flags == s.flags
    ensures Holding(s')
  {
    assert s.list == [b] + s'.list;
    assert forall u, x :: Holds(s', u, x) <==> Holds(s, u, x);
    forall x | x in s'.flags && !s'.flags[x].available ensures HasHolder(s', x) {
      assert HasHolder(s, x);
    }
  }

  lemma DeleteData(s: State, s': State, t: Tid, b: Buf, tpos: Option<Buf>, code: Code)
    requires Locks(s) && Data(s) && t in s.pc && s.pc[t] == ClearDelete(b, tpos, code)
    requires s' == Delete(s, t, b, tpos, code)
    ensures Data(s') && OwnerStep(s, s', t)
  {
    assert SweepOk(s, s.pc[t]);
    DeleteShape(s, s', t, b, tpos, code);
    DeletePartition(s, s', b);
    DeleteClearing(s, s', t, b, tpos, code);
    DeleteHolding(s, s', b);
    BitsFrame(s, s', t);
  }

  lemma DeleteMay(s: State, s': State, t: Tid, b: Buf, tpos: Option<Buf>, code: Code)
    requires t in s.pc && s.pc[t] == ClearDelete(b, tpos, code) && s.shutdown && s' == Delete(s, t, b, tpos, code)
    requires OwnerStep(s, s', t) && s.lock == Some(t)
    ensures OwnerMay(s, s', t)
  {
  }

  lemma DeleteKeeps(s: State, s': State, t: Tid, b: Buf, tpos: Option<Buf>, code: Code)
    requires Inv(s) && t in s.pc && s.pc[t] == ClearDelete(b, tpos, code) && s' == Delete(s, t, b, tpos, code)
    ensures Inv(s')
  {
    DeleteData(s, s', t, b, tpos, code);
    DeleteMay(s, s', t, b, tpos, code);
    OwnerThreads(s, s', t);
  }

  /** A move of a thread that enters or leaves clear. */
  lemma PhaseKeeps(s: State, s': State, t: Tid, p: Pc, lock': Option<Tid>, phase': ClearPhase)
    requires Inv(s) && t in s.pc && s' == Move(s, t, p, lock').(phase := phase')
    requires (s.pc[t].ClearUnlock? && p == Idle(Void) && lock'.None? && phase' == Finished)
             || (s.pc[t].Idle? && p == ClearLock && lock' == s.lock && s.phase.NotCalled? && phase' == Called(t))
    ensures Inv(s')
  {
    PhaseData(s, s', t, p, lock', phase');
    PhaseThreads(s, s', t, p, lock', phase');
  }

  lemma PhaseData(s: State, s': State, t: Tid, p: Pc, lock': Option<Tid>, phase': ClearPhase)
    requires Locks(s) && Data(s) && t in s.pc && s' == Move(s, t, p, lock').(phase := phase')
    requires (s.pc[t].ClearUnlock? && p == Idle(Void) && lock'.None? && phase' == Finished)
             || (s.pc[t].Idle? && p == ClearLock && lock' == s.lock && s.phase.NotCalled? && phase' == Called(t))
    ensures Data(s')
  {
    PartitionFrame(s, s');
    HoldingFrame(s, s');
    PhaseClearing(s, t, p, lock', phase');
    MoveBits(s, t, p, lock');
    assert forall b :: Halfway(s', b) <==> Halfway(Move(s, t, p, lock'), b);
  }

  lemma PhaseThreads(s: State, s': State, t: Tid, p: Pc, lock': Option<Tid>, phase': ClearPhase)
    requires Threads(s) && t in s.pc && s' == Move(s, t, p, lock').(phase := phase')
    requires (s.pc[t].ClearUnlock? && p == Idle(Void) && lock'.None?)
             || (s.pc[t].Idle? && p == ClearLock && lock' == s.lock && !s.shutdown)
    ensures Threads(s')
  {
    MoveLocks(s, t, p, lock');
    MoveLocals(s, t, p, lock');
    MoveWakeups(s, t, p, lock');
    MoveHistories(s, t, p, lock');
    PhaseFrame(Move(s, t, p, lock'), phase');
  }

  lemma PhaseFrame(m: State, phase': ClearPhase)
    requires Threads(m)
    ensures Threads(m.(phase := phase'))
  {
    var s' := m.(phase := phase');
    forall u | u in s'.pc ensures LocalOk(s', u, s'.pc[u]) && HistoryOk(s', u, s'.pc[u]) {
      assert LocalOk(m, u, m.pc[u]) && HistoryOk(m, u, m.pc[u]);
    }
    forall u, b | u in s'.pc && SleepsOn(s'.pc[u], b) && Available(s', b) ensures HasWaker(s', b) {
      assert SleepsOn(m.pc[u], b) && HasWaker(m, b);
    }
  }

  lemma PhaseClearing(s: State, t: Tid, p: Pc, lock': Option<Tid>, phase': ClearPhase)
    requires Clearing(s) && t in s.pc
    requires (s.pc[t].ClearUnlock? && p == Idle(Void) && phase' == Finished)
             || (s.pc[t].Idle? && p == ClearLock && s.phase.NotCalled? && phase' == Called(t))
    ensures Clearing(Move(s, t, p, lock').(phase := phase'))
  {
    var s' := Move(s, t, p, lock').(phase := phase');
    assert SweepOk(s, s.pc[t]);
    forall u | u in s'.pc ensures SweepOk(s', s'.pc[u]) {
      assert SweepOk(s, s.pc[u]);
    }
  }

  // A call of append brings a new buffer.

  ghost predicate CreateStep(s: State, s': State, t: Tid, b: Buf) {
    && t in s.pc && s.pc[t].Idle? && b !in s.flags
    && s'.pc == s.pc[t := AppendLock(b)] && s'.flags == s.flags[b := Flags(true, false)]
    && s'.pending == s.pending + {b}
    && s' == s.(pc := s'.pc, flags := s'.flags, pending := s'.pending)
  }

  lemma CreatePartition(s: State, s': State, t: Tid, b: Buf)
    requires Partition(s) && CreateStep(s, s', t, b)
    ensures Partition(s')
  {
    forall x | x in s'.pending ensures HasAdder(s', x) {
      if x == b {
        assert Adding(s'.pc[t]) == Some(b);
      } else {
        assert HasAdder(s, x);
        var u :| u in s.pc && Adding(s.pc[u]) == Some(x);
        assert u in s'.pc && Adding(s'.pc[u]) == Some(x);
      }
    }
  }

  lemma CreateClearing(s: State, s': State, t: Tid, b: Buf)
    requires Clearing(s) && CreateStep(s, s', t, b)
    ensures Clearing(s')
  {
    forall u | u in s'.pc ensures SweepOk(s', s'.pc[u]) {
      assert SweepOk(s, s.pc[u]);
    }
  }

  lemma CreateHolding(s: State, s': State, t: Tid, b: Buf)
    requires Holding(s) && CreateStep(s, s', t, b)
    ensures Holding(s')
  {
    assert forall u, x :: Holds(s', u, x) <==> Holds(s, u, x);
    forall x | x in s'.flags && !s'.flags[x].available ensures HasHolder(s', x) {
      assert HasHolder(s, x);
    }
  }

  lemma CreateBits(s: State, s': State, t: Tid, b: Buf)
    requires Bits(s) && CreateStep(s, s', t, b)
    ensures Bits(s')
  {
    forall x | x in s.flags && Halfway(s, x) ensures Halfway(s', x) {
    }
  }

  lemma CreateLocals(s: State, s': State, t: Tid, b: Buf)
    requires Locals(s) && CreateStep(s, s', t, b)
    ensures Locals(s')
  {
    forall u | u in s'.pc ensures LocalOk(s', u, s'.pc[u]) {
      assert LocalOk(s, u, s.pc[u]);
    }
  }

  lemma CreateLocks(s: State, s': State, t: Tid, b: Buf)
    requires Locks(s) && CreateStep(s, s', t, b)
    ensures Locks(s') && (Advancing(s') ==> Advancing(s))
  {
  }

  lemma CreateHistories(s: State, s': State, t: Tid, b: Buf)
    requires Histories(s) && CreateStep(s, s', t, b) && (Advancing(s') ==> Advancing(s))
    ensures Histories(s')
  {
    forall u | u in s'.pc ensures HistoryOk(s', u, s'.pc[u]) {
      assert HistoryOk(s, u, s.pc[u]);
    }
  }

  lemma CreateWakeups(s: State, s': State, t: Tid, b: Buf)
    requires Partition(s) && Clearing(s) && Locals(s) && Wakeups(s) && CreateStep(s, s', t, b)
    ensures Wakeups(s')
  {
    forall u | u in s.pc ensures !SleepsOn(s.pc[u], b) {
      assert LocalOk(s, u, s.pc[u]) && SweepOk(s, s.pc[u]);
    }
    WakeupsFrame(s, s', t);
  }

  lemma CreateKeeps(s: State, s': State, t: Tid, b: Buf)
    requires Inv(s) && CreateStep(s, s', t, b)
    ensures Inv(s')
  {
    CreatePartition(s, s', t, b);
    CreateClearing(s, s', t, b);
    CreateHolding(s, s', t, b);
    CreateBits(s, s', t, b);
    CreateLocals(s, s', t, b);
    CreateLocks(s, s', t, b);
    CreateHistories(s, s', t, b);
    CreateWakeups(s, s', t, b);
  }
}
