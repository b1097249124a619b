/**
 * Calls that run without interruption, as the sequential operations they
 * stand for, and concrete runs built from them.
 */
module ProtocolSections {
  import opened Common
  import opened Circular
  import opened Protocol
  import opened ProtocolSteps
  import opened ProtocolRuns
  import opened ProtocolTheorems

  /** es leads from s to end. */
  ghost predicate Leads(s: State, es: seq<Event>, end: State) {
    Valid(s, es) && Outcome(s, es) == end
  }

  lemma OneStep(s: State, e: Event, mid: State, es: seq<Event>, end: State)
    requires Enabled(s, e) && Apply(s, e) == mid && Leads(mid, es, end)
    ensures Leads(s, [e] + es, end)
  {
    assert ([e] + es)[1..] == es;
  }

  lemma {:induction false} Then(s: State, es: seq<Event>, mid: State, es': seq<Event>, end: State)
    requires Leads(s, es, mid) && Leads(mid, es', end)
    ensures Leads(s, es + es', end)
    decreases |es|
  {
    if es == [] {
      assert es + es' == es';
    } else {
      var e, rest := es[0], es[1..];
      Then(Apply(s, e), rest, mid, es', end);
      OneStep(s, e, Apply(s, e), rest + es', end);
      assert es + es' == [e] + (rest + es');
    }
  }

  /** The thread is between calls and the lock is free. */
  ghost predicate Ready(s: State, t: Tid) {
    t in s.pc && t in s.held && s.pc[t].Idle? && s.lock.None?
  }

  /** n statements of thread t in a row. */
  function Solo(t: Tid, n: nat): seq<Event> {
    if n == 0 then [] else [Run(t)] + Solo(t, n - 1)
  }

  lemma SoloStep(s: State, t: Tid, mid: State, n: nat, end: State)
    requires Enabled(s, Run(t)) && Exec(s, t) == mid && Leads(mid, Solo(t, n), end)
    ensures Leads(s, Solo(t, n + 1), end)
  {
    OneStep(s, Run(t), mid, Solo(t, n), end);
  }

  // Single statements.

  lemma LockRuns(s: State, t: Tid, p: Pc)
    requires t in s.pc && t in s.held && s.lock.None? && AfterLock(s.pc[t], p)
    ensures Leads(s, Solo(t, 1), Acquire(s, t, p))
  {
    SoloStep(s, t, Acquire(s, t, p), 0, Acquire(s, t, p));
  }

  lemma LinkRuns(s: State, t: Tid, b: Buf)
    requires t in s.pc && t in s.held && s.pc[t] == AppendLink(b)
    ensures Leads(s, Solo(t, 1), Link(s, t, b))
  {
    SoloStep(s, t, Link(s, t, b), 0, Link(s, t, b));
  }

  lemma UnlockRuns(s: State, t: Tid)
    requires t in s.pc && t in s.held && s.pc[t] == AppendUnlock
    ensures Leads(s, Solo(t, 1), Release(s, t, Idle(Void)))
  {
    SoloStep(s, t, Release(s, t, Idle(Void)), 0, Release(s, t, Idle(Void)));
  }

  lemma ReserveRuns(s: State, t: Tid, b: Buf, c: Call)
    requires t in s.pc && t in s.held && s.pc[t] == GetReserve(b, c) && b in s.flags
    ensures Leads(s, Solo(t, 1), Reserve(s, t, b))
  {
    SoloStep(s, t, Reserve(s, t, b), 0, Reserve(s, t, b));
  }

  lemma MarkRuns(s: State, t: Tid, b: Buf)
    requires t in s.pc && t in s.held && s.pc[t] == GetMark(b) && b in s.flags
    ensures Leads(s, Solo(t, 1), Mark(s, t, b))
  {
    SoloStep(s, t, Mark(s, t, b), 0, Mark(s, t, b));
  }

  lemma PassRuns(s: State, t: Tid, b: Buf, c: Call)
    requires t in s.pc && t in s.held && s.pc[t].GetTest? && s.pc[t].b == b && s.pc[t].c == c && Available(s, b)
    ensures Leads(s, Solo(t, 1), Goto(s, t, GetReserve(b, c)))
  {
    SoloStep(s, t, Goto(s, t, GetReserve(b, c)), 0, Goto(s, t, GetReserve(b, c)));
  }

  lemma AdvanceRuns(s: State, t: Tid, b: Buf)
    requires t in s.pc && t in s.held && s.pc[t] == GetAdvance(b)
    ensures Leads(s, Solo(t, 1), Advance(s, t, b))
  {
    SoloStep(s, t, Advance(s, t, b), 0, Advance(s, t, b));
  }

  lemma GotRuns(s: State, t: Tid, b: Buf)
    requires t in s.pc && t in s.held && s.pc[t] == GetUnlock(b)
    ensures Leads(s, Solo(t, 1), Release(s, t, Idle(Got(b))))
  {
    SoloStep(s, t, Release(s, t, Idle(Got(b))), 0, Release(s, t, Idle(Got(b))));
  }

  lemma ShutRuns(s: State, t: Tid)
    requires t in s.pc && t in s.held && s.pc[t] == ClearFlag
    ensures Leads(s, Solo(t, 1), Shut(s, t))
  {
    SoloStep(s, t, Shut(s, t), 0, Shut(s, t));
  }

  /** Statements in a row. */
  lemma SoloThen(s: State, t: Tid, m: nat, mid: State, n: nat, end: State)
    requires Leads(s, Solo(t, m), mid) && Leads(mid, Solo(t, n), end)
    ensures Leads(s, Solo(t, m + n), end)
  {
    Then(s, Solo(t, m), mid, Solo(t, n), end);
    SoloSum(t, m, n);
  }

  lemma {:induction false} SoloSum(t: Tid, m: nat, n: nat)
    ensures Solo(t, m) + Solo(t, n) == Solo(t, m + n)
  {
    if m > 0 {
      SoloSum(t, m - 1, n);
    }
  }

  /** What the heap-level list keeps of a state. */
  function Shared(s: State): View<Buf> {
    View(s.list, s.next, s.shutdown)
  }

  /** append: the buffer goes to the end of the list; the first one also becomes the cursor. */
  lemma AppendAlone(s: State, t: Tid, b: Buf)
    requires Ready(s, t) && b !in s.flags && b !in s.pending
    ensures var end := s.(list := s.list + [b], next := if s.list == [] then Some(b) else s.next,
                          flags := s.flags[b := Flags(true, false)],
                          behind := if PastEnd(s) then s.behind + {b} else s.behind, pc := s.pc[t := Idle(Void)]);
            Leads(s, [CallAppend(t, b)] + Solo(t, 3), end) && Shared(end) == Appended(Shared(s), b)
  {
    var s1 := Apply(s, CallAppend(t, b));
    AppendRuns(s1, t, b);
    var s4 := Release(Link(Acquire(s1, t, AppendLink(b)), t, b), t, Idle(Void));
    assert s4.pc == s.pc[t := Idle(Void)] && s4.pending == s.pending;
    OneStep(s, CallAppend(t, b), s1, Solo(t, 3), s4);
  }

  lemma AppendRuns(s: State, t: Tid, b: Buf)
    requires t in s.pc && t in s.held && s.pc[t] == AppendLock(b) && s.lock.None?
    ensures Leads(s, Solo(t, 3), Release(Link(Acquire(s, t, AppendLink(b)), t, b), t, Idle(Void)))
  {
    var s1 := Acquire(s, t, AppendLink(b));
    var s2 := Link(s1, t, b);
    LockRuns(s, t, AppendLink(b));
    LinkRuns(s1, t, b);
    UnlockRuns(s2, t);
    SoloThen(s, t, 1, s1, 1, s2);
    SoloThen(s, t, 2, s2, 1, Release(s2, t, Idle(Void)));
  }

  /** get_free up to its test. */
  lemma GetEnters(s: State, t: Tid, b: Buf)
    requires Ready(s, t) && !s.shutdown && s.next == Some(b)
    ensures Leads(s, [CallGet(t)] + Solo(t, 2),
                  s.(lock := Some(t), pc := s.pc[t := GetTest(b, Call(|s.log|, |s.log|, 0), false)]))
  {
    var c := Call(|s.log|, |s.log|, 0);
    var s1 := Goto(s, t, GetLock(c));
    var s2 := Acquire(s1, t, GetCheck(c));
    var s3 := Goto(s2, t, GetTest(b, c, false));
    assert s3 == s.(lock := Some(t), pc := s.pc[t := GetTest(b, c, false)]);
    SoloStep(s2, t, s3, 0, s3);
    SoloStep(s1, t, s2, 1, s3);
    OneStep(s, CallGet(t), s1, Solo(t, 2), s3);
  }

  /** The test and lines 256-257. */
  lemma TestReserves(s: State, t: Tid, b: Buf, c: Call)
    requires t in s.pc && t in s.held && s.pc[t].GetTest? && s.pc[t].b == b && s.pc[t].c == c
    requires s.lock == Some(t) && Available(s, b)
    ensures Leads(s, Solo(t, 3),
                  s.(flags := s.flags[b := Flags(false, true)], held := s.held[t := s.held[t] + {b}],
                     log := s.log + [Reservation(t, b)], pc := s.pc[t := GetAdvance(b)]))
  {
    var s1 := Goto(s, t, GetReserve(b, c));
    var s2 := Reserve(s1, t, b);
    var s3 := Mark(s2, t, b);
    assert s3.pc == s.pc[t := GetAdvance(b)] && s3.flags == s.flags[b := Flags(false, true)];
    ReserveRuns(s1, t, b, c);
    MarkRuns(s2, t, b);
    SoloThen(s1, t, 1, s2, 1, s3);
    PassRuns(s, t, b, c);
    SoloThen(s, t, 1, s1, 2, s3);
  }

  /** Lines 260-268. */
  lemma AdvanceReturns(s: State, t: Tid, b: Buf)
    requires t in s.pc && t in s.held && s.pc[t] == GetAdvance(b) && s.lock == Some(t)
    requires s.next == Some(b) && b in s.list
    ensures Leads(s, Solo(t, 2), s.(lock := None, next := Some(Successor(s.list, b)), pc := s.pc[t := Idle(Got(b))]))
  {
    var s1 := Advance(s, t, b);
    var s2 := Release(s1, t, Idle(Got(b)));
    assert s2.pc == s.pc[t := Idle(Got(b))];
    AdvanceRuns(s, t, b);
    GotRuns(s1, t, b);
    SoloThen(s, t, 1, s1, 1, s2);
  }

  /** get_free on an available cursor: the buffer changes hands and the cursor moves on. */
  lemma GetAlone(s: State, t: Tid, b: Buf)
    requires Ready(s, t) && !s.shutdown && s.next == Some(b) && b in s.list && Available(s, b)
    ensures var end := s.(next := Some(Successor(s.list, b)), flags := s.flags[b := Flags(false, true)],
                          held := s.held[t := s.held[t] + {b}], log := s.log + [Reservation(t, b)],
                          pc := s.pc[t := Idle(Got(b))]);
            Leads(s, [CallGet(t)] + Solo(t, 2) + Solo(t, 3) + Solo(t, 2), end)
            && Shared(end) == Advanced(Shared(s))
  {
    var c := Call(|s.log|, |s.log|, 0);
    GetEnters(s, t, b);
    var s1 := s.(lock := Some(t), pc := s.pc[t := GetTest(b, c, false)]);
    TestReserves(s1, t, b, c);
    var s2 := s1.(flags := s.flags[b := Flags(false, true)], held := s.held[t := s.held[t] + {b}],
                  log := s.log + [Reservation(t, b)], pc := s1.pc[t := GetAdvance(b)]);
    Then(s, [CallGet(t)] + Solo(t, 2), s1, Solo(t, 3), s2);
    GetLeaves(s, t, b, s2, [CallGet(t)] + Solo(t, 2) + Solo(t, 3));
  }

  lemma GetLeaves(s: State, t: Tid, b: Buf, s2: State, es: seq<Event>)
    requires t in s.pc && t in s.held && s.lock.None? && s.next == Some(b) && b in s.list && b in s.flags
    requires s2 == s.(lock := Some(t), flags := s2.flags, held := s2.held, log := s2.log, pc := s2.pc)
    requires s2.pc == s.pc[t := GetAdvance(b)] && t in s2.held && Leads(s, es, s2)
    ensures Leads(s, es + Solo(t, 2), s.(next := Some(Successor(s.list, b)), flags := s2.flags, held := s2.held,
                                         log := s2.log, pc := s.pc[t := Idle(Got(b))]))
  {
    AdvanceReturns(s2, t, b);
    var s3 := s2.(lock := None, next := Some(Successor(s.list, b)), pc := s2.pc[t := Idle(Got(b))]);
    assert s3.pc == s.pc[t := Idle(Got(b))];
    Then(s, es, s2, Solo(t, 2), s3);
  }

  /** get_free on an unavailable cursor: the lock is dropped and the thread waits. */
  lemma GetBlocks(s: State, t: Tid, b: Buf)
    requires Ready(s, t) && !s.shutdown && s.next == Some(b) && !Available(s, b)
    ensures Leads(s, [CallGet(t)] + Solo(t, 2) + Solo(t, 1), s.(pc := s.pc[t := GetCond(b, Call(|s.log|, |s.log|, 0))]))
  {
    var c := Call(|s.log|, |s.log|, 0);
    GetEnters(s, t, b);
    var s1 := s.(lock := Some(t), pc := s.pc[t := GetTest(b, c, false)]);
    var s2 := Release(s1, t, GetCond(b, c));
    assert s2 == s.(pc := s.pc[t := GetCond(b, c)]);
    SoloStep(s1, t, s2, 0, s2);
    Then(s, [CallGet(t)] + Solo(t, 2), s1, Solo(t, 1), s2);
  }

  /** get_free on a list that is shut down: -ENOMEM, and nothing has changed. */
  lemma GetRefused(s: State, t: Tid)
    requires Ready(s, t) && s.shutdown
    ensures Leads(s, [CallGet(t)] + Solo(t, 2), s.(pc := s.pc[t := Idle(NoMemory)]))
  {
    var c := Call(|s.log|, |s.log|, 0);
    var s1 := Goto(s, t, GetLock(c));
    var s2 := Acquire(s1, t, GetCheck(c));
    var s3 := Release(s2, t, Idle(NoMemory));
    assert s3 == s.(pc := s.pc[t := Idle(NoMemory)]);
    LockRuns(s1, t, GetCheck(c));
    SoloStep(s2, t, s3, 0, s3);
    SoloThen(s1, t, 1, s2, 1, s3);
    OneStep(s, CallGet(t), s1, Solo(t, 2), s3);
  }

  /** A waiting get_free whose buffer stays reserved until the timeout: -EBUSY, and nothing has changed. */
  lemma GetTimesOut(s: State, t: Tid, b: Buf, c: Call)
    requires t in s.pc && t in s.held && s.pc[t] == GetCond(b, c) && !Available(s, b)
    ensures Leads(s, Solo(t, 1), s.(pc := s.pc[t := GetAsleep(b, c)]))
    ensures Leads(s, Solo(t, 1) + [Timeout(t)], s.(pc := s.pc[t := Idle(Busy)]))
  {
    var s1 := Goto(s, t, GetAsleep(b, c));
    var s2 := Goto(s1, t, Idle(Busy));
    assert s2 == s.(pc := s.pc[t := Idle(Busy)]);
    SoloStep(s, t, s1, 0, s1);
    OneStep(s1, Timeout(t), s2, [], s2);
    assert [Timeout(t)] + [] == [Timeout(t)];
    Then(s, Solo(t, 1), s1, [Timeout(t)], s2);
  }

  /** Back under the lock after a successful wait, get_free reads the cursor again. */
  lemma GetComesBack(s: State, t: Tid, b: Buf, c: Call, b': Buf)
    requires t in s.pc && t in s.held && s.pc[t] == GetCond(b, c) && Available(s, b) && s.lock.None?
    requires !s.shutdown && s.next == Some(b')
    ensures Leads(s, Solo(t, 3), s.(lock := Some(t), pc := s.pc[t := GetTest(b', c, true)]))
  {
    var s1 := Goto(s, t, GetRelock(b, c));
    var s2 := Acquire(s1, t, GetRecheck(b, c));
    var s3 := Goto(s2, t, GetTest(b', c, true));
    assert s3 == s.(lock := Some(t), pc := s.pc[t := GetTest(b', c, true)]);
    LockRuns(s1, t, GetRecheck(b, c));
    SoloStep(s2, t, s3, 0, s3);
    SoloThen(s1, t, 1, s2, 1, s3);
    SoloStep(s, t, s1, 2, s3);
  }

  /** A get_free whose wait succeeds takes the buffer the cursor then stands at, whichever it waited for. */
  lemma GetAfterWait(s: State, t: Tid, b: Buf, c: Call, b': Buf)
    requires t in s.pc && t in s.held && s.pc[t] == GetCond(b, c) && Available(s, b) && s.lock.None?
    requires !s.shutdown && s.next == Some(b') && b' in s.list && Available(s, b')
    ensures Leads(s, Solo(t, 3) + Solo(t, 3) + Solo(t, 2),
                  s.(next := Some(Successor(s.list, b')), flags := s.flags[b' := Flags(false, true)],
                     held := s.held[t := s.held[t] + {b'}], log := s.log + [Reservation(t, b')],
                     pc := s.pc[t := Idle(Got(b'))]))
  {
    GetComesBack(s, t, b, c, b');
    var s1 := s.(lock := Some(t), pc := s.pc[t := GetTest(b', c, true)]);
    TestReserves(s1, t, b', c);
    var s2 := s1.(flags := s.flags[b' := Flags(false, true)], held := s.held[t := s.held[t] + {b'}],
                  log := s.log + [Reservation(t, b')], pc := s1.pc[t := GetAdvance(b')]);
    assert s2.pc == s.pc[t := GetAdvance(b')];
    Then(s, Solo(t, 3), s1, Solo(t, 3), s2);
    GetLeaves(s, t, b', s2, Solo(t, 3) + Solo(t, 3));
  }

  /** The wake-up of set_free: every sleeper goes back to its condition, and nothing else changes. */
  lemma WakeAlone(s: State, t: Tid, b: Buf)
    requires t in s.pc && t in s.held && s.pc[t] == SetWake(b)
    ensures var end := Apply(s, Run(t));
            && end == s.(pc := end.pc) && end.pc.Keys == s.pc.Keys && end.pc[t] == Idle(Void)
            && forall u :: u in s.pc && u != t ==>
                 end.pc[u] == if s.pc[u].GetAsleep? then GetCond(s.pc[u].b, s.pc[u].c)
                              else if s.pc[u].ClearAsleep? then ClearCond(s.pc[u].b, s.pc[u].tpos)
                              else s.pc[u]
  {
  }

  /** get_free without buffers: a null cursor is dereferenced, where the documentation promises -ENOMEM. */
  lemma EmptyListFaults(s: State, t: Tid)
    requires Ready(s, t) && !s.shutdown && s.next.None?
    ensures Leads(s, [CallGet(t)] + Solo(t, 2), s.(lock := Some(t), pc := s.pc[t := GetFault]))
  {
    var c := Call(|s.log|, |s.log|, 0);
    var s1 := Goto(s, t, GetLock(c));
    var s2 := Acquire(s1, t, GetCheck(c));
    var s3 := Goto(s2, t, GetFault);
    assert s3 == s.(lock := Some(t), pc := s.pc[t := GetFault]);
    SoloStep(s2, t, s3, 0, s3);
    SoloStep(s1, t, s2, 1, s3);
    OneStep(s, CallGet(t), s1, Solo(t, 2), s3);
  }

  /** set_free up to its wake-up: the buffer is available again and has no holder. */
  lemma SetAlone(s: State, t: Tid, b: Buf)
    requires Ready(s, t) && b in s.held[t] && b in s.flags
    ensures Leads(s, [CallSet(t, b)] + Solo(t, 2) + Solo(t, 2),
                  s.(flags := s.flags[b := Flags(true, false)], held := s.held[t := s.held[t] - {b}],
                     released := s.released + [b], pc := s.pc[t := SetWake(b)]))
  {
    SetEnters(s, t, b);
    var s1 := s.(lock := Some(t), flags := s.flags[b := s.flags[b].(waiting := false)], pc := s.pc[t := SetAvail(b)]);
    SetLeaves(s1, t, b);
    var s2 := s1.(lock := None, flags := s1.flags[b := s1.flags[b].(available := true)],
                  held := s.held[t := s.held[t] - {b}], released := s.released + [b], pc := s1.pc[t := SetWake(b)]);
    assert s2.pc == s.pc[t := SetWake(b)] && s2.flags == s.flags[b := Flags(true, false)];
    Then(s, [CallSet(t, b)] + Solo(t, 2), s1, Solo(t, 2), s2);
  }

  lemma SetEnters(s: State, t: Tid, b: Buf)
    requires Ready(s, t) && b in s.held[t] && b in s.flags
    ensures Leads(s, [CallSet(t, b)] + Solo(t, 2),
                  s.(lock := Some(t), flags := s.flags[b := s.flags[b].(waiting := false)], pc := s.pc[t := SetAvail(b)]))
  {
    var s1 := Goto(s, t, SetLock(b));
    var s2 := Acquire(s1, t, SetClear(b));
    var s3 := Unmark(s2, t, b);
    assert s3.pc == s.pc[t := SetAvail(b)];
    SoloStep(s2, t, s3, 0, s3);
    SoloStep(s1, t, s2, 1, s3);
    OneStep(s, CallSet(t, b), s1, Solo(t, 2), s3);
  }

  lemma SetLeaves(s: State, t: Tid, b: Buf)
    requires t in s.pc && t in s.held && s.pc[t] == SetAvail(b) && b in s.flags
    ensures Leads(s, Solo(t, 2),
                  s.(lock := None, flags := s.flags[b := s.flags[b].(available := true)],
                     held := s.held[t := s.held[t] - {b}], released := s.released + [b], pc := s.pc[t := SetWake(b)]))
  {
    var s1 := MakeAvailable(s, t, b);
    var s2 := Release(s1, t, SetWake(b));
    assert s2.pc == s.pc[t := SetWake(b)];
    SoloStep(s1, t, s2, 0, s2);
    SoloStep(s, t, s1, 1, s2);
  }

  /** clear on a list whose first buffer is reserved: the flag is set and clear waits. */
  lemma ClearBlocks(s: State, t: Tid, b: Buf)
    requires Ready(s, t) && s.phase.NotCalled? && s.list != [] && s.list[0] == b && Distinct(s.list) && !Available(s, b)
    ensures Leads(s, [CallClear(t)] + Solo(t, 1) + Solo(t, 2),
                  s.(shutdown := true, phase := Called(t), pc := s.pc[t := ClearCond(b, Second(s.list))]))
  {
    ClearEnters(s, t);
    var s1 := s.(lock := Some(t), phase := Called(t), pc := s.pc[t := ClearFlag]);
    FlagBlocks(s1, t, b);
    var s3 := s1.(shutdown := true, lock := None, pc := s1.pc[t := ClearCond(b, Second(s.list))]);
    assert s3.pc == s.pc[t := ClearCond(b, Second(s.list))];
    Then(s, [CallClear(t)] + Solo(t, 1), s1, Solo(t, 2), s3);
  }

  lemma FlagBlocks(s: State, t: Tid, b: Buf)
    requires t in s.pc && t in s.held && s.pc[t] == ClearFlag && s.lock == Some(t)
    requires s.list != [] && s.list[0] == b && Distinct(s.list) && !Available(s, b)
    ensures Leads(s, Solo(t, 2), s.(shutdown := true, lock := None, pc := s.pc[t := ClearCond(b, Second(s.list))]))
  {
    VisitsFirst(s.list);
    var s1 := Shut(s, t);
    assert s1 == s.(shutdown := true, pc := s.pc[t := ClearTest(b, Second(s.list), Positive)]);
    ShutRuns(s, t);
    var s2 := Release(s1, t, ClearCond(b, Second(s.list)));
    assert s2.pc == s.pc[t := ClearCond(b, Second(s.list))];
    BlockRuns(s1, t, b, Second(s.list));
    SoloThen(s, t, 1, s1, 1, s2);
  }

  lemma BlockRuns(s: State, t: Tid, b: Buf, tpos: Option<Buf>)
    requires t in s.pc && t in s.held && s.pc[t] == ClearTest(b, tpos, Positive) && !Available(s, b)
    ensures Leads(s, Solo(t, 1), Release(s, t, ClearCond(b, tpos)))
  {
    SoloStep(s, t, Release(s, t, ClearCond(b, tpos)), 0, Release(s, t, ClearCond(b, tpos)));
  }

  lemma ClearEnters(s: State, t: Tid)
    requires Ready(s, t) && s.phase.NotCalled?
    ensures Leads(s, [CallClear(t)] + Solo(t, 1), s.(lock := Some(t), phase := Called(t), pc := s.pc[t := ClearFlag]))
  {
    var s1 := Apply(s, CallClear(t));
    var s2 := Acquire(s1, t, ClearFlag);
    assert s2.pc == s.pc[t := ClearFlag];
    SoloStep(s1, t, s2, 0, s2);
    OneStep(s, CallClear(t), s1, Solo(t, 1), s2);
  }

  ghost function FreeBuffers(s: State): set<Buf> {
    set b | b in s.flags && s.flags[b].available
  }

  /** The state after a locked stretch of clear that leaves r. */
  ghost function AfterSweep(s: State, t: Tid, r: Swept<Buf>): State {
    s.(list := r.list, destroyed := s.destroyed + Elements(r.destroyed), leaked := s.leaked + Elements(r.leaked),
       lock := if r.at.Some? then None else s.lock,
       pc := s.pc[t := if r.at.Some? then ClearCond(r.at.value, r.tpos) else ClearUnlock])
  }

  /** clear from a test of its first buffer to the next wait, or to its end, is the stretch of the heap-level list. */
  lemma {:induction false} SweepAlone(s: State, t: Tid, tpos: Option<Buf>, code: Code) returns (n: nat)
    requires t in s.pc && t in s.held && s.lock == Some(t) && s.list != [] && Distinct(s.list)
    requires s.pc[t] == ClearTest(s.list[0], tpos, code) && (tpos.Some? ==> tpos == Second(s.list))
    ensures Leads(s, Solo(t, n), AfterSweep(s, t, SweepFrom(s.list, FreeBuffers(s), tpos, code.Positive?)))
    decreases |s.list|
  {
    var free, good := FreeBuffers(s), code.Positive?;
    if !Available(s, s.list[0]) {
      n := SweepWaits(s, t, tpos, code);
    } else {
      var s2 := TakesFirst(s, t, tpos, code);
      if tpos.Some? {
        n := SweepAlone(s2, t, Second(s2.list), Positive);
        assert FreeBuffers(s2) == free;
        n := SweepGoesOn(s, t, s2, good, n, SweepFrom(s2.list, free, Second(s2.list), true));
      } else {
        SweepEnds(s2, t);
        n := SweepGoesOn(s, t, s2, good, 0, Swept(s2.list, None, None, [], []));
      }
    }
  }

  lemma SweepGoesOn(s: State, t: Tid, s2: State, good: bool, n: nat, r: Swept<Buf>) returns (m: nat)
    requires Leads(s, Solo(t, 2), s2) && TookOut(s, t, s2, good) && Leads(s2, Solo(t, n), AfterSweep(s2, t, r))
    ensures var b := s.list[0];
            Leads(s, Solo(t, m),
                  AfterSweep(s, t, if good then r.(destroyed := [b] + r.destroyed) else r.(leaked := [b] + r.leaked)))
  {
    SweptMore(s, t, s2, good, r);
    Then(s, Solo(t, 2), s2, Solo(t, n), AfterSweep(s2, t, r));
    SoloSum(t, 2, n);
    m := 2 + n;
  }

  lemma SweepEnds(s: State, t: Tid)
    requires t in s.pc && s.pc[t] == ClearUnlock
    ensures Leads(s, Solo(t, 0), AfterSweep(s, t, Swept(s.list, None, None, [], [])))
  {
    assert s == AfterSweep(s, t, Swept(s.list, None, None, [], []));
  }

  lemma SweepWaits(s: State, t: Tid, tpos: Option<Buf>, code: Code) returns (n: nat)
    requires t in s.pc && t in s.held && s.list != [] && !Available(s, s.list[0])
    requires s.pc[t] == ClearTest(s.list[0], tpos, code)
    ensures Leads(s, Solo(t, n), AfterSweep(s, t, Swept(s.list, Some(s.list[0]), tpos, [], [])))
  {
    var b := s.list[0];
    var s1 := Release(s, t, ClearCond(b, tpos));
    assert s1 == AfterSweep(s, t, Swept(s.list, Some(b), tpos, [], []));
    SoloStep(s, t, s1, 0, s1);
    n := 1;
  }

  /** One buffer more is taken out. */
  ghost predicate TookOut(s: State, t: Tid, s2: State, good: bool) {
    && s.list != [] && s2.list == s.list[1..] && t in s2.pc && s2.pc == s.pc[t := s2.pc[t]]
    && s2 == s.(list := s2.list, destroyed := s2.destroyed, leaked := s2.leaked, pc := s2.pc)
    && s2.destroyed == (if good then s.destroyed + {s.list[0]} else s.destroyed)
    && s2.leaked == (if good then s.leaked else s.leaked + {s.list[0]})
  }

  lemma TakesFirst(s: State, t: Tid, tpos: Option<Buf>, code: Code) returns (s2: State)
    requires t in s.pc && t in s.held && s.list != [] && Distinct(s.list) && Available(s, s.list[0])
    requires s.pc[t] == ClearTest(s.list[0], tpos, code) && (tpos.Some? ==> tpos == Second(s.list))
    ensures Leads(s, Solo(t, 2), s2) && TookOut(s, t, s2, code.Positive?)
    ensures s2.pc[t] == if tpos.Some? then ClearTest(s2.list[0], Second(s2.list), Positive) else ClearUnlock
  {
    var b := s.list[0];
    var s1 := Goto(s, t, ClearDelete(b, tpos, code));
    TestRuns(s, t, b, tpos, code);
    DeleteRuns(s1, t, b, tpos, code);
    s2 := DeletesFirst(s, t, s1, tpos, code);
    Then(s, Solo(t, 1), s1, Solo(t, 1), s2);
    SoloSum(t, 1, 1);
  }

  lemma TestRuns(s: State, t: Tid, b: Buf, tpos: Option<Buf>, code: Code)
    requires t in s.pc && t in s.held && s.pc[t] == ClearTest(b, tpos, code) && Available(s, b)
    ensures Leads(s, Solo(t, 1), Goto(s, t, ClearDelete(b, tpos, code)))
  {
    var s1 := Goto(s, t, ClearDelete(b, tpos, code));
    SoloStep(s, t, s1, 0, s1);
  }

  lemma DeleteRuns(s: State, t: Tid, b: Buf, tpos: Option<Buf>, code: Code)
    requires t in s.pc && t in s.held && s.pc[t] == ClearDelete(b, tpos, code)
    ensures Leads(s, Solo(t, 1), Delete(s, t, b, tpos, code))
  {
    SoloStep(s, t, Delete(s, t, b, tpos, code), 0, Delete(s, t, b, tpos, code));
  }

  lemma DeletesFirst(s: State, t: Tid, s1: State, tpos: Option<Buf>, code: Code) returns (s2: State)
    requires t in s.pc && s.list != [] && Distinct(s.list) && (tpos.Some? ==> tpos == Second(s.list))
    requires s1 == Goto(s, t, ClearDelete(s.list[0], tpos, code))
    ensures s2 == Delete(s1, t, s.list[0], tpos, code) && TookOut(s, t, s2, code.Positive?)
    ensures s2.pc[t] == if tpos.Some? then ClearTest(s2.list[0], Second(s2.list), Positive) else ClearUnlock
  {
    s2 := Delete(s1, t, s.list[0], tpos, code);
    WithoutFirst(s.list);
    if tpos.Some? {
      VisitsFirst(s2.list);
    }
    assert s2.pc == s.pc[t := s2.pc[t]];
  }

  lemma SweptMore(s: State, t: Tid, s2: State, good: bool, r: Swept<Buf>)
    requires TookOut(s, t, s2, good)
    ensures var b := s.list[0];
            AfterSweep(s2, t, r) ==
            AfterSweep(s, t, if good then r.(destroyed := [b] + r.destroyed) else r.(leaked := [b] + r.leaked))
  {
    var b := s.list[0];
    assert Elements([b] + r.destroyed) == {b} + Elements(r.destroyed);
    assert Elements([b] + r.leaked) == {b} + Elements(r.leaked);
    var p := if r.at.Some? then ClearCond(r.at.value, r.tpos) else ClearUnlock;
    assert s2.pc[t := p] == s.pc[t := p];
  }

  /** A waiter that finds its buffer available but the flag set returns with the lock held. */
  lemma RelockAbandons(s: State, t: Tid, b: Buf, c: Call)
    requires t in s.pc && t in s.held && s.pc[t] == GetCond(b, c) && s.lock.None? && s.shutdown && Available(s, b)
    ensures Leads(s, Solo(t, 3), s.(lock := Some(t), pc := s.pc[t := Idle(Interrupted)]))
  {
    var s1 := Goto(s, t, GetRelock(b, c));
    var s2 := Acquire(s1, t, GetRecheck(b, c));
    var s3 := Goto(s2, t, Idle(Interrupted));
    assert s3 == s.(lock := Some(t), pc := s.pc[t := Idle(Interrupted)]);
    RecheckReturns(s2, t, b, c);
    LockRuns(s1, t, GetRecheck(b, c));
    SoloThen(s1, t, 1, s2, 1, s3);
    SoloStep(s, t, s1, 2, s3);
  }

  lemma RecheckReturns(s: State, t: Tid, b: Buf, c: Call)
    requires t in s.pc && t in s.held && s.pc[t] == GetRecheck(b, c) && s.shutdown
    ensures Leads(s, Solo(t, 1), Goto(s, t, Idle(Interrupted)))
  {
    SoloStep(s, t, Goto(s, t, Idle(Interrupted)), 0, Goto(s, t, Idle(Interrupted)));
  }

  /** clear on an empty list finishes at once. */
  lemma ClearEmpty(s: State, t: Tid)
    requires Ready(s, t) && s.phase.NotCalled? && s.list == []
    ensures Leads(s, [CallClear(t)] + Solo(t, 1) + Solo(t, 2),
                  s.(shutdown := true, phase := Finished, pc := s.pc[t := Idle(Void)]))
  {
    ClearEnters(s, t);
    var s1 := s.(lock := Some(t), phase := Called(t), pc := s.pc[t := ClearFlag]);
    var s2 := Shut(s1, t);
    assert s2.pc[t] == ClearUnlock;
    var s3 := Release(s2, t, Idle(Void)).(phase := Finished);
    assert s3.pc == s.pc[t := Idle(Void)];
    SoloStep(s2, t, s3, 0, s3);
    SoloStep(s1, t, s2, 1, s3);
    Then(s, [CallClear(t)] + Solo(t, 1), s1, Solo(t, 2), s3);
  }

  lemma {:induction false} ReachableThen(s: State, es: seq<Event>, end: State)
    requires Reachable(s) && Leads(s, es, end)
    ensures Reachable(end)
  {
    var threads, first :| Valid(Init(threads), first) && Outcome(Init(threads), first) == s;
    Then(Init(threads), first, s, es, end);
  }

  lemma InitReachable(threads: set<Tid>)
    ensures Reachable(Init(threads))
  {
    assert Valid(Init(threads), []) && Outcome(Init(threads), []) == Init(threads);
  }

  /** append does not look at the flag: a buffer appended after clear stays listed. */
  lemma LateAppendStaysListed()
    ensures exists s :: Reachable(s) && s.phase.Finished? && s.list != []
  {
    var s := Init({0});
    InitReachable({0});
    ClearEmpty(s, 0);
    var s1 := s.(shutdown := true, phase := Finished, pc := s.pc[0 := Idle(Void)]);
    ReachableThen(s, [CallClear(0)] + Solo(0, 1) + Solo(0, 2), s1);
    AppendAlone(s1, 0, 7);
    var s2 := s1.(list := [7], next := Some(7), flags := s1.flags[7 := Flags(true, false)],
                  behind := {7}, pc := s1.pc[0 := Idle(Void)]);
    ReachableThen(s1, [CallAppend(0, 7)] + Solo(0, 3), s2);
  }

  /** Thread 1 holds the only buffer and all three threads are between calls. */
  ghost predicate OneReserved(s: State) {
    && Reachable(s) && !s.shutdown && s.lock.None? && s.phase.NotCalled? && s.list == [7] && s.next == Some(7)
    && Ready(s, 0) && Ready(s, 1) && Ready(s, 2)
    && 7 in s.held[1] && 7 in s.flags && !s.flags[7].available
  }

  lemma OneListed() returns (s: State)
    ensures Reachable(s) && !s.shutdown && s.phase.NotCalled? && s.list == [7] && s.next == Some(7)
    ensures Ready(s, 0) && Ready(s, 1) && Ready(s, 2) && Available(s, 7)
  {
    var i := Init({0, 1, 2});
    InitReachable({0, 1, 2});
    AppendAlone(i, 0, 7);
    s := i.(list := [7], next := Some(7), flags := i.flags[7 := Flags(true, false)], pc := i.pc[0 := Idle(Void)]);
    assert i.list + [7] == [7];
    ReachableThen(i, [CallAppend(0, 7)] + Solo(0, 3), s);
  }

  lemma OneTaken() returns (s: State)
    ensures OneReserved(s)
  {
    var i := OneListed();
    GetAlone(i, 1, 7);
    assert Successor([7], 7) == 7;
    s := i.(flags := i.flags[7 := Flags(false, true)], held := i.held[1 := i.held[1] + {7}],
            log := i.log + [Reservation(1, 7)], pc := i.pc[1 := Idle(Got(7))]);
    ReachableThen(i, [CallGet(1)] + Solo(1, 2) + Solo(1, 3) + Solo(1, 2), s);
  }

  /** Thread 0 waits for the buffer, thread 2 is in clear, thread 1 still holds the buffer. */
  lemma BothWait() returns (s: State, c: Call)
    ensures Reachable(s) && s.shutdown && s.phase.Called? && Ready(s, 1) && 7 in s.held[1] && 7 in s.flags
    ensures 0 in s.pc && 0 in s.held && s.pc[0] == GetCond(7, c)
  {
    var i := OneTaken();
    c := Call(|i.log|, |i.log|, 0);
    GetBlocks(i, 0, 7);
    var s1 := i.(pc := i.pc[0 := GetCond(7, c)]);
    ReachableThen(i, [CallGet(0)] + Solo(0, 2) + Solo(0, 1), s1);
    ClearBlocks(s1, 2, 7);
    s := s1.(shutdown := true, phase := Called(2), pc := s1.pc[2 := ClearCond(7, None)]);
    ReachableThen(s1, [CallClear(2)] + Solo(2, 1) + Solo(2, 2), s);
  }

  /** Not every return of get_free releases the lock: a run in which clear then waits for ever. */
  lemma LockCanBeAbandoned()
    ensures exists s :: Reachable(s) && Abandoned(s) && s.phase.Called?
  {
    var i, c := BothWait();
    SetAlone(i, 1, 7);
    var s1 := i.(flags := i.flags[7 := Flags(true, false)], held := i.held[1 := i.held[1] - {7}],
                 released := i.released + [7], pc := i.pc[1 := SetWake(7)]);
    ReachableThen(i, [CallSet(1, 7)] + Solo(1, 2) + Solo(1, 2), s1);
    AbandonsNext(s1, 0, 7, c);
  }

  lemma AbandonsNext(s: State, t: Tid, b: Buf, c: Call)
    requires Reachable(s) && s.phase.Called? && s.shutdown && s.lock.None? && Available(s, b)
    requires t in s.pc && t in s.held && s.pc[t] == GetCond(b, c)
    ensures exists s' :: Reachable(s') && Abandoned(s') && s'.phase.Called?
  {
    RelockAbandons(s, t, b, c);
    var s' := s.(lock := Some(t), pc := s.pc[t := Idle(Interrupted)]);
    ReachableThen(s, Solo(t, 3), s');
    assert Abandoned(s');
  }

  /** The wait of clear times out on a buffer that is still reserved. */
  lemma TimesOut(s: State, t: Tid, b: Buf, tpos: Option<Buf>)
    requires t in s.pc && t in s.held && s.pc[t] == ClearCond(b, tpos) && !Available(s, b)
    ensures Leads(s, [Run(t), Timeout(t)], Goto(s, t, ClearRelock(b, tpos, Zero)))
  {
    var s1 := Goto(s, t, ClearAsleep(b, tpos));
    var s2 := Goto(s1, t, ClearRelock(b, tpos, Zero));
    assert s2 == Goto(s, t, ClearRelock(b, tpos, Zero));
    OneStep(s1, Timeout(t), s2, [], s2);
    OneStep(s, Run(t), s1, [Timeout(t)] + [], s2);
    assert [Run(t)] + ([Timeout(t)] + []) == [Run(t), Timeout(t)];
  }

  /** After a timeout clear does not move on: it comes back to the very state in which it started to wait. */
  lemma WaitsAgain(s: State, t: Tid, b: Buf, tpos: Option<Buf>)
    requires t in s.pc && t in s.held && s.pc[t] == ClearCond(b, tpos) && !Available(s, b) && s.lock.None?
    ensures Leads(s, [Run(t), Timeout(t)] + Solo(t, 2), s)
  {
    TimesOut(s, t, b, tpos);
    var s1 := Goto(s, t, ClearRelock(b, tpos, Zero));
    var s2 := Acquire(s1, t, ClearTest(b, tpos, Zero));
    LockRuns(s1, t, ClearTest(b, tpos, Zero));
    var s3 := Release(s2, t, ClearCond(b, tpos));
    assert s3.pc == s.pc && s3 == s;
    SoloStep(s2, t, s, 0, s);
    SoloThen(s1, t, 1, s2, 1, s);
    Then(s, [Run(t), Timeout(t)], s1, Solo(t, 2), s);
  }

  /** clear waits on the reserved buffer. */
  lemma ClearWaiting() returns (s: State)
    ensures Reachable(s) && s.lock.None? && s.list == [7] && Ready(s, 1) && 7 in s.held[1] && !Available(s, 7) && 7 in s.flags
    ensures 2 in s.pc && 2 in s.held && s.pc[2] == ClearCond(7, None)
  {
    var i := OneTaken();
    ClearBlocks(i, 2, 7);
    s := i.(shutdown := true, phase := Called(2), pc := i.pc[2 := ClearCond(7, None)]);
    ReachableThen(i, [CallClear(2)] + Solo(2, 1) + Solo(2, 2), s);
  }

  /** So a clear can wait for ever on a buffer that is never released, ... */
  lemma ClearCanWaitForEver()
    ensures exists s :: Reachable(s) && 2 in s.pc && s.pc[2].ClearCond?
                        && Leads(s, [Run(2), Timeout(2)] + Solo(2, 2), s)
  {
    var s := ClearWaiting();
    WaitsAgain(s, 2, 7, None);
  }

  /** ... and leaks a buffer that is released between its timeout and its next look. */
  lemma BufferCanLeak()
    ensures exists s :: Reachable(s) && s.leaked != {}
  {
    var i := ClearWaiting();
    TimesOut(i, 2, 7, None);
    var s1 := Goto(i, 2, ClearRelock(7, None, Zero));
    ReachableThen(i, [Run(2), Timeout(2)], s1);
    var s4 := LeaksAfter(s1);
    assert 7 in s4.leaked;
  }

  lemma LeaksAfter(s1: State) returns (s4: State)
    requires Reachable(s1) && s1.lock.None? && s1.list == [7] && Ready(s1, 1) && 7 in s1.held[1] && 7 in s1.flags
    requires 2 in s1.pc && 2 in s1.held && s1.pc[2] == ClearRelock(7, None, Zero)
    ensures Reachable(s4) && 7 in s4.leaked && s4.destroyed == s1.destroyed
  {
    SetAlone(s1, 1, 7);
    var s2 := s1.(flags := s1.flags[7 := Flags(true, false)], held := s1.held[1 := s1.held[1] - {7}],
                  released := s1.released + [7], pc := s1.pc[1 := SetWake(7)]);
    ReachableThen(s1, [CallSet(1, 7)] + Solo(1, 2) + Solo(1, 2), s2);
    LockRuns(s2, 2, ClearTest(7, None, Zero));
    var s3 := Acquire(s2, 2, ClearTest(7, None, Zero));
    ReachableThen(s2, Solo(2, 1), s3);
    s4 := TakesFirst(s3, 2, None, Zero);
    ReachableThen(s3, Solo(2, 2), s4);
  }
}
